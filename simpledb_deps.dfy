// The rules behind `SimpleDB.FormulaDep` (tracer/dep_tracer/simpledb.go:339-392):
// a sequence of provenance bytes is cut into maximal runs of consecutive
// positions of one formula, each run becomes that formula or a slice of it,
// and the parts are concatenated.  Also the formula cache entries and what a
// cache lookup yields.
module FormulaDeps {
  import opened Common
  import opened Opcodes
  import opened Formulas
  import opened DepBytes

  /** A formula cache entry: the formula and whether it is already in the formula DB. */
  datatype CommitFormula = Entry(formula: Formula, committed: bool)

  type Cache = map<Hash, CommitFormula>

  /** What `GetFormula(h)` yields: the cached formula, else the decoded DB value (a missing key fails). */
  function KnownFormula(p: Prims, cache: Cache, db: KV, h: Hash): (r: Result<Formula>)
    ensures h in cache ==> r == Ok(cache[h].formula)
    ensures h !in cache && h !in db ==> r.Fail?
    ensures h !in cache && h in db ==> r == Decode(p, db[h])
  {
    if h in cache then Ok(cache[h].formula)
    else if h !in db then Fail("key not found")
    else Decode(p, db[h])
  }

  /** `c1` keeps every entry of `c0` unchanged. */
  predicate Extends(c0: Cache, c1: Cache)
  {
    forall h :: h in c0 ==> h in c1 && c1[h] == c0[h]
  }

  /** In a formula DB, a stored formula's hash is a lookup that keeps giving the same formula. */
  lemma ExtendsKnown(p: Prims, c0: Cache, c1: Cache, db: KV, h: Hash)
    requires Extends(c0, c1) && h in c0
    ensures KnownFormula(p, c1, db, h) == KnownFormula(p, c0, db, h)
  {
  }

  // ---- runs ----

  /** `b` extends a run ending in `a`: same formula, next position (as `uint64`). */
  predicate Continues(a: DEPByte, b: DEPByte)
  {
    a.formula == b.formula && b.pos == Next(a.pos)
  }

  /** `pos + 1` as `uint64`. */
  function Next(pos: U64): U64
  {
    if pos == U64_MAX then 0 else pos + 1
  }

  predicate Consecutive(run: seq<DEPByte>)
  {
    forall i :: 0 <= i < |run| - 1 ==> Continues(run[i], run[i + 1])
  }

  function Last<T>(s: seq<T>): T
    requires |s| > 0
  {
    s[|s| - 1]
  }

  /** The runs the first loop of `FormulaDep` builds, one byte at a time. */
  function Runs(val: seq<DEPByte>): (r: seq<seq<DEPByte>>)
    ensures |r| <= |val| && (|val| > 0 <==> |r| > 0)
    ensures forall k :: 0 <= k < |r| ==> |r[k]| > 0
    decreases |val|
  {
    if |val| == 0 then []
    else
      var prev := Runs(val[..|val| - 1]);
      var b := Last(val);
      if |prev| > 0 && Continues(Last(Last(prev)), b) then prev[..|prev| - 1] + [Last(prev) + [b]]
      else prev + [[b]]
  }

  /** One step of the run-splitting loop: byte `i` extends the last run or opens a new one. */
  lemma RunsExtend(val: seq<DEPByte>, i: nat, done: seq<seq<DEPByte>>, cur: seq<DEPByte>)
    requires i < |val| && |cur| > 0 && done + [cur] == Runs(val[..i])
    ensures Continues(Last(cur), val[i]) ==> done + [cur + [val[i]]] == Runs(val[..i + 1])
    ensures !Continues(Last(cur), val[i]) ==> (done + [cur]) + [[val[i]]] == Runs(val[..i + 1])
  {
    assert val[..i + 1][..i] == val[..i];
    var prev := done + [cur];
    assert Last(prev) == cur && prev[..|prev| - 1] == done;
  }

  lemma RunsFirst(val: seq<DEPByte>)
    requires |val| > 0
    ensures Runs(val[..1]) == [[val[0]]]
  {
    assert val[..1][..0] == [];
  }

  function Joined(rs: seq<seq<DEPByte>>): seq<DEPByte>
  {
    if |rs| == 0 then [] else Joined(rs[..|rs| - 1]) + Last(rs)
  }

  /** No run could have absorbed the first byte of the next one. */
  predicate Maximal(rs: seq<seq<DEPByte>>)
    requires forall k :: 0 <= k < |rs| ==> |rs[k]| > 0
  {
    forall k :: 0 <= k < |rs| - 1 ==> !Continues(Last(rs[k]), rs[k + 1][0])
  }

  lemma {:induction false} JoinedAppendToLast(rs: seq<seq<DEPByte>>, b: DEPByte)
    requires |rs| > 0
    ensures Joined(rs[..|rs| - 1] + [Last(rs) + [b]]) == Joined(rs) + [b]
  {
    var rs' := rs[..|rs| - 1] + [Last(rs) + [b]];
    assert rs'[..|rs'| - 1] == rs[..|rs| - 1];
  }

  lemma {:induction false} RunsJoined(val: seq<DEPByte>)
    ensures Joined(Runs(val)) == val
    decreases |val|
  {
    if |val| > 0 {
      var init := val[..|val| - 1];
      RunsJoined(init);
      var prev := Runs(init);
      var b := Last(val);
      assert val == init + [b];
      if |prev| > 0 && Continues(Last(Last(prev)), b) {
        JoinedAppendToLast(prev, b);
      } else {
        assert (prev + [[b]])[..|prev|] == prev;
      }
    }
  }

  lemma {:induction false} RunsConsecutive(val: seq<DEPByte>)
    ensures forall k :: 0 <= k < |Runs(val)| ==> Consecutive(Runs(val)[k])
    decreases |val|
  {
    if |val| > 0 {
      var init := val[..|val| - 1];
      RunsConsecutive(init);
      var prev := Runs(init);
      var b := Last(val);
      var r := Runs(val);
      if |prev| > 0 && Continues(Last(Last(prev)), b) {
        var run := Last(prev) + [b];
        assert Consecutive(Last(prev));
        assert Consecutive(run) by {
          forall i | 0 <= i < |run| - 1
            ensures Continues(run[i], run[i + 1])
          {
            if i < |run| - 2 {
              assert run[i] == Last(prev)[i] && run[i + 1] == Last(prev)[i + 1];
            }
          }
        }
        assert forall k :: 0 <= k < |r| - 1 ==> r[k] == prev[k];
      } else {
        assert forall k :: 0 <= k < |prev| ==> r[k] == prev[k];
      }
    }
  }

  lemma {:induction false} RunsMaximal(val: seq<DEPByte>)
    ensures Maximal(Runs(val))
    decreases |val|
  {
    if |val| > 0 {
      var init := val[..|val| - 1];
      RunsMaximal(init);
      var prev := Runs(init);
      var b := Last(val);
      var r := Runs(val);
      if |prev| > 0 && Continues(Last(Last(prev)), b) {
        assert forall k :: 0 <= k < |r| - 1 ==> r[k] == prev[k];
        assert |r| > 1 ==> r[|r| - 1][0] == prev[|prev| - 1][0];
      } else {
        assert forall k :: 0 <= k < |prev| ==> r[k] == prev[k];
      }
    }
  }

  /**
   * The runs are exactly the input, cut into non-empty runs of consecutive
   * positions of one formula, and cut only where the next byte does not
   * continue the run.
   */
  lemma RunsFacts(val: seq<DEPByte>)
    ensures var r := Runs(val);
      && Joined(r) == val
      && (forall k :: 0 <= k < |r| ==> Consecutive(r[k]))
      && Maximal(r)
  {
    RunsJoined(val);
    RunsConsecutive(val);
    RunsMaximal(val);
  }

  /** Each byte of a consecutive run is the first position plus its index, modulo 2^64. */
  lemma {:induction false} ConsecutivePositions(run: seq<DEPByte>, i: nat)
    requires Consecutive(run) && i < |run| && i < U64_LIMIT
    ensures run[i].formula == run[0].formula
    ensures run[i].pos == if run[0].pos + i < U64_LIMIT then run[0].pos + i else run[0].pos + i - U64_LIMIT
  {
    if i > 0 {
      ConsecutivePositions(run, i - 1);
      assert Continues(run[i - 1], run[i]);
    }
  }

  // ---- parts ----

  /** A run's contribution: the hash put into the concat, and its bytes. */
  datatype Part = Part(hash: Hash, bytes: seq<Byte>)

  /** `rangeSize`: last position minus first plus one, as `uint64`. */
  function RunSize(run: seq<DEPByte>): U64
    requires |run| > 0
  {
    var d := Last(run).pos - run[0].pos + 1;
    if d < 0 then d + U64_LIMIT else if d == U64_LIMIT then 0 else d
  }

  /** The slice formula `FormulaDep` and `FormulaSlice` build over the formula with hash `h`. */
  function SliceFormula(p: Prims, h: Hash, offset: U64, size: U64, bytes: seq<Byte>): (f: Formula)
    ensures f.opcode == OP_SLICE && f.result == bytes && |f.operands| == 3 && f.operands[0] == h
    ensures f.operands[1] == ConstantNew(p, OP_CONSTANT, BE64(offset)).hash
    ensures f.operands[2] == ConstantNew(p, OP_CONSTANT, BE64(size)).hash
  {
    FormulaNew(p, OP_SLICE, bytes,
               [h, ConstantNew(p, OP_CONSTANT, BE64(offset)).hash, ConstantNew(p, OP_CONSTANT, BE64(size)).hash])
  }

  /**
   * One iteration of the second loop: a run covering all of `f` stands for
   * `f` itself (its hash as given); any other run becomes a slice, failing
   * when `result[first:first+size]` is out of bounds.
   */
  function RunPart(p: Prims, f: Formula, run: seq<DEPByte>): Result<Part>
    requires |run| > 0
  {
    var first := run[0].pos;
    var size := RunSize(run);
    if first == 0 && size == |f.result| then Ok(Part(run[0].formula, f.result))
    else
      var end := Add64(first, size);
      if end < first || end > |f.result| then Fail("slice bounds out of range")
      else Ok(Part(SliceFormula(p, run[0].formula, first, size, f.result[first..end]).hash, f.result[first..end]))
  }

  /** The parts of all runs, looking each run's formula up in `cache`. */
  function Parts(p: Prims, cache: Cache, runs: seq<seq<DEPByte>>): (r: Result<seq<Part>>)
    requires forall k :: 0 <= k < |runs| ==> |runs[k]| > 0
    ensures r.Ok? ==> |r.value| == |runs|
  {
    if |runs| == 0 then Ok([])
    else
      var prev := Parts(p, cache, runs[..|runs| - 1]);
      var run := Last(runs);
      if prev.Fail? then prev
      else if run[0].formula !in cache then Fail("key not found")
      else match RunPart(p, cache[run[0].formula].formula, run)
        case Fail(m) => Fail(m)
        case Ok(part) => Ok(prev.value + [part])
  }

  function PartHashes(ps: seq<Part>): (r: seq<Hash>)
    ensures |r| == |ps| && forall k :: 0 <= k < |ps| ==> r[k] == ps[k].hash
  {
    if |ps| == 0 then [] else PartHashes(ps[..|ps| - 1]) + [Last(ps).hash]
  }

  function PartBytes(ps: seq<Part>): seq<Byte>
  {
    if |ps| == 0 then [] else PartBytes(ps[..|ps| - 1]) + Last(ps).bytes
  }

  /** The formula `FormulaDep` returns for a non-empty input, given the final cache. */
  function DepFormula(p: Prims, cache: Cache, ps: seq<Part>): Result<Formula>
  {
    if |ps| == 1 then
      if ps[0].hash in cache then Ok(cache[ps[0].hash].formula) else Fail("key not found")
    else Ok(FormulaNew(p, OP_CONCAT, PartBytes(ps), PartHashes(ps)))
  }

  /**
   * The formula `FormulaDep` returns for any input, given the final cache:
   * the empty concatenation for no bytes, else the formula of its parts.
   */
  function DepOf(p: Prims, cache: Cache, val: seq<DEPByte>): (r: Result<Formula>)
    ensures |val| == 0 ==> r == Ok(FormulaNew(p, OP_CONCAT, [], []))
    ensures |val| > 0 && r.Ok? ==> Parts(p, cache, Runs(val)).Ok?
    ensures |val| > 0 && Parts(p, cache, Runs(val)).Ok? && |Runs(val)| > 1 ==>
      r == Ok(FormulaNew(p, OP_CONCAT, PartBytes(Parts(p, cache, Runs(val)).value), PartHashes(Parts(p, cache, Runs(val)).value)))
  {
    if |val| == 0 then Ok(FormulaNew(p, OP_CONCAT, [], []))
    else match Parts(p, cache, Runs(val))
      case Fail(m) => Fail(m)
      case Ok(ps) => DepFormula(p, cache, ps)
  }

  /** The dependency formula of some bytes does not change as the cache grows. */
  lemma DepOfExtends(p: Prims, c0: Cache, c1: Cache, val: seq<DEPByte>)
    requires Extends(c0, c1) && DepOf(p, c0, val).Ok?
    ensures DepOf(p, c1, val) == DepOf(p, c0, val)
  {
    if |val| > 0 {
      PartsExtends(p, c0, c1, Runs(val));
    }
  }

  // ---- what the bytes mean ----

  /** The byte `b` stands for: position `pos` of the result of formula `b.formula`. */
  predicate Resolves(cache: Cache, b: DEPByte)
  {
    b.formula in cache && b.pos < |cache[b.formula].formula.result|
  }

  function ValueOf(cache: Cache, b: DEPByte): Byte
  {
    if Resolves(cache, b) then cache[b.formula].formula.result[b.pos] else 0
  }

  function ValuesOf(cache: Cache, val: seq<DEPByte>): (r: seq<Byte>)
    ensures |r| == |val| && forall i :: 0 <= i < |val| ==> r[i] == ValueOf(cache, val[i])
  {
    seq(|val|, i requires 0 <= i < |val| => ValueOf(cache, val[i]))
  }

  /** Every formula the bytes refer to is cached and shorter than 2^64 bytes, as every encodable one is. */
  predicate Encodables(cache: Cache, val: seq<DEPByte>)
  {
    forall i :: 0 <= i < |val| && val[i].formula in cache ==> |cache[val[i].formula].formula.result| < U64_LIMIT
  }

  lemma RunPartNoWrap(p: Prims, cache: Cache, run: seq<DEPByte>)
    requires |run| > 0 && Consecutive(run) && run[0].pos + |run| < U64_LIMIT
    requires run[0].formula in cache
    ensures var r := RunPart(p, cache[run[0].formula].formula, run);
      && (r.Ok? <==> AllResolve(cache, run))
      && (r.Ok? ==> r.value.bytes == ValuesOf(cache, run))
  {
    var f := cache[run[0].formula].formula;
    var first := run[0].pos;
    var n := |run|;
    forall i | 0 <= i < n
      ensures run[i].formula == run[0].formula && run[i].pos == first + i
    {
      ConsecutivePositions(run, i);
    }
    assert RunSize(run) == n;
    var r := RunPart(p, f, run);
    if first + n <= |f.result| {
      assert forall i :: 0 <= i < n ==> Resolves(cache, run[i]);
      assert r.value.bytes == f.result[first..first + n];
    } else {
      assert !Resolves(cache, run[n - 1]);
    }
  }

  lemma RunPartWrap(p: Prims, cache: Cache, run: seq<DEPByte>)
    requires |run| > 0 && Consecutive(run) && |run| < U64_LIMIT && run[0].pos + |run| >= U64_LIMIT
    requires run[0].formula in cache && |cache[run[0].formula].formula.result| < U64_LIMIT
    ensures RunPart(p, cache[run[0].formula].formula, run).Fail?
    ensures exists i :: 0 <= i < |run| && !Resolves(cache, run[i])
  {
    var i := U64_LIMIT - 1 - run[0].pos;
    ConsecutivePositions(run, i);
    assert !Resolves(cache, run[i]);
    var f := cache[run[0].formula].formula;
    var n := |run|;
    var first := run[0].pos;
    ConsecutivePositions(run, n - 1);
    assert first > 0;
    if first + n - 1 == U64_MAX {
      assert Last(run).pos == U64_MAX;
      assert RunSize(run) == U64_LIMIT - first;
      assert Add64(first, RunSize(run)) == 0;
    } else {
      assert Last(run).pos == first + n - 1 - U64_LIMIT;
      assert RunSize(run) == n;
      assert Add64(first, RunSize(run)) == first + n - U64_LIMIT;
    }
  }

  /**
   * A run yields its part exactly when all its positions fall inside the
   * formula, and the part's bytes are then the bytes the run points to.
   */
  lemma RunPartMeaning(p: Prims, cache: Cache, run: seq<DEPByte>)
    requires |run| > 0 && Consecutive(run) && |run| < U64_LIMIT
    requires run[0].formula in cache && |cache[run[0].formula].formula.result| < U64_LIMIT
    ensures var r := RunPart(p, cache[run[0].formula].formula, run);
      && (r.Ok? <==> AllResolve(cache, run))
      && (r.Ok? ==> r.value.bytes == ValuesOf(cache, run))
  {
    if run[0].pos + |run| < U64_LIMIT {
      RunPartNoWrap(p, cache, run);
    } else {
      RunPartWrap(p, cache, run);
    }
  }

  predicate AllResolve(cache: Cache, s: seq<DEPByte>)
  {
    forall i :: 0 <= i < |s| ==> Resolves(cache, s[i])
  }

  lemma AppendFacts(cache: Cache, a: seq<DEPByte>, b: seq<DEPByte>)
    ensures AllResolve(cache, a + b) <==> AllResolve(cache, a) && AllResolve(cache, b)
    ensures ValuesOf(cache, a + b) == ValuesOf(cache, a) + ValuesOf(cache, b)
    ensures Encodables(cache, a + b) ==> Encodables(cache, a) && Encodables(cache, b)
  {
    assert forall i :: 0 <= i < |a| ==> (a + b)[i] == a[i];
    assert forall i :: 0 <= i < |b| ==> (a + b)[|a| + i] == b[i];
    if AllResolve(cache, a) && AllResolve(cache, b) {
      forall i | 0 <= i < |a + b|
        ensures Resolves(cache, (a + b)[i])
      {
        if i >= |a| {
          assert (a + b)[i] == b[i - |a|];
        }
      }
    }
  }

  lemma {:induction false} PartsMeaning(p: Prims, cache: Cache, runs: seq<seq<DEPByte>>)
    requires forall k :: 0 <= k < |runs| ==> |runs[k]| > 0 && Consecutive(runs[k])
    requires |Joined(runs)| < U64_LIMIT && Encodables(cache, Joined(runs))
    ensures var r := Parts(p, cache, runs);
      && (r.Ok? <==> AllResolve(cache, Joined(runs)))
      && (r.Ok? ==> PartBytes(r.value) == ValuesOf(cache, Joined(runs)))
  {
    if |runs| > 0 {
      var init := runs[..|runs| - 1];
      var run := Last(runs);
      var j := Joined(runs);
      assert j == Joined(init) + run;
      AppendFacts(cache, Joined(init), run);
      PartsMeaning(p, cache, init);
      var prev := Parts(p, cache, init);
      var r := Parts(p, cache, runs);
      if run[0].formula in cache {
        assert Encodables(cache, run);
        RunPartMeaning(p, cache, run);
        if r.Ok? {
          assert r.value[..|r.value| - 1] == prev.value;
        }
      } else {
        assert !Resolves(cache, run[0]);
      }
    }
  }

  /**
   * For any input shorter than 2^64 bytes over encodable formulas, the parts
   * exist exactly when every byte resolves to a byte of a cached formula,
   * and then the concatenated parts are the values the bytes stand for.
   */
  lemma DepMeaning(p: Prims, cache: Cache, val: seq<DEPByte>)
    requires |val| < U64_LIMIT && Encodables(cache, val)
    ensures var r := Parts(p, cache, Runs(val));
      && (r.Ok? <==> AllResolve(cache, val))
      && (r.Ok? ==> PartBytes(r.value) == ValuesOf(cache, val))
  {
    RunsFacts(val);
    PartsMeaning(p, cache, Runs(val));
  }

  /**
   * What the dependency formula of some bytes stands for: it exists only when
   * every byte resolves, and when the bytes span several runs it is a
   * concatenation whose result is exactly the values the bytes point at.
   */
  lemma DepOfMeaning(p: Prims, cache: Cache, val: seq<DEPByte>)
    requires |val| < U64_LIMIT && Encodables(cache, val)
    ensures DepOf(p, cache, val).Ok? ==> AllResolve(cache, val)
    ensures |Runs(val)| > 1 ==> (DepOf(p, cache, val).Ok? <==> AllResolve(cache, val))
    ensures |Runs(val)| > 1 && DepOf(p, cache, val).Ok? ==>
      DepOf(p, cache, val).value.opcode == OP_CONCAT && DepOf(p, cache, val).value.result == ValuesOf(cache, val)
  {
    DepMeaning(p, cache, val);
  }

  /** A run that covers a whole formula keeps that formula's hash; any other run gets a slice formula. */
  lemma RunPartCases(p: Prims, f: Formula, run: seq<DEPByte>)
    requires |run| > 0 && RunPart(p, f, run).Ok?
    ensures var part := RunPart(p, f, run).value;
      var first := run[0].pos;
      var size := RunSize(run);
      && (first == 0 && size == |f.result| ==> part == Part(run[0].formula, f.result))
      && (!(first == 0 && size == |f.result|) ==>
            first + size <= |f.result|
            && part == Part(SliceFormula(p, run[0].formula, first, size, f.result[first..first + size]).hash,
                            f.result[first..first + size]))
  {
  }

  /** Parts are stable under cache growth. */
  lemma {:induction false} PartsExtends(p: Prims, c0: Cache, c1: Cache, runs: seq<seq<DEPByte>>)
    requires forall k :: 0 <= k < |runs| ==> |runs[k]| > 0
    requires Extends(c0, c1) && Parts(p, c0, runs).Ok?
    ensures Parts(p, c1, runs) == Parts(p, c0, runs)
  {
    if |runs| > 0 {
      PartsExtends(p, c0, c1, runs[..|runs| - 1]);
    }
  }

  /** The parts of a prefix of the runs are the prefix of the parts. */
  lemma {:induction false} PartsPrefix(p: Prims, c: Cache, runs: seq<seq<DEPByte>>, k: nat)
    requires forall i :: 0 <= i < |runs| ==> |runs[i]| > 0
    requires k <= |runs| && Parts(p, c, runs).Ok?
    ensures Parts(p, c, runs[..k]).Ok? && Parts(p, c, runs[..k]).value == Parts(p, c, runs).value[..k]
    decreases |runs|
  {
    if k < |runs| {
      var init := runs[..|runs| - 1];
      PartsPrefix(p, c, init, k);
      assert init[..k] == runs[..k];
      assert Parts(p, c, runs).value[..|runs| - 1] == Parts(p, c, init).value;
    } else {
      assert runs[..k] == runs;
    }
  }

  /** A failure on a prefix of the runs, in a grown cache, is a failure of all the runs in the original cache. */
  lemma PartsFailStays(p: Prims, c0: Cache, c1: Cache, runs: seq<seq<DEPByte>>, k: nat)
    requires forall i :: 0 <= i < |runs| ==> |runs[i]| > 0
    requires Extends(c0, c1) && k <= |runs| && Parts(p, c1, runs[..k]).Fail?
    ensures Parts(p, c0, runs).Fail?
  {
    if Parts(p, c0, runs).Ok? {
      PartsPrefix(p, c0, runs, k);
      PartsExtends(p, c0, c1, runs[..k]);
    }
  }

  /** One more run: the parts so far, then the part of run `k` in the formula it names. */
  lemma PartsStep(p: Prims, c: Cache, runs: seq<seq<DEPByte>>, k: nat)
    requires forall i :: 0 <= i < |runs| ==> |runs[i]| > 0
    requires k < |runs|
    ensures var prev := Parts(p, c, runs[..k]);
      Parts(p, c, runs[..k + 1]) ==
        if prev.Fail? then prev
        else if runs[k][0].formula !in c then Fail("key not found")
        else match RunPart(p, c[runs[k][0].formula].formula, runs[k])
          case Fail(m) => Fail(m)
          case Ok(part) => Ok(prev.value + [part])
  {
    assert runs[..k + 1][..k] == runs[..k];
  }

  /** A run whose part was found in a grown cache extends the parts found so far. */
  lemma PartsAppend(p: Prims, ca: Cache, c1: Cache, runs: seq<seq<DEPByte>>, k: nat, parts0: seq<Part>, part: Part)
    requires forall i :: 0 <= i < |runs| ==> |runs[i]| > 0
    requires k < |runs| && Parts(p, ca, runs[..k]) == Ok(parts0) && Extends(ca, c1)
    requires runs[k][0].formula in c1 && RunPart(p, c1[runs[k][0].formula].formula, runs[k]) == Ok(part)
    ensures Parts(p, c1, runs[..k + 1]) == Ok(parts0 + [part])
    ensures PartHashes(parts0 + [part]) == PartHashes(parts0) + [part.hash]
    ensures PartBytes(parts0 + [part]) == PartBytes(parts0) + part.bytes
  {
    PartsExtends(p, ca, c1, runs[..k]);
    PartsStep(p, c1, runs, k);
    assert (parts0 + [part])[..|parts0|] == parts0;
  }

  /** A run whose part could not be found, in a grown cache, fails all the runs in the original cache. */
  lemma PartsFail(p: Prims, c0: Cache, ca: Cache, c1: Cache, runs: seq<seq<DEPByte>>, k: nat)
    requires forall i :: 0 <= i < |runs| ==> |runs[i]| > 0
    requires k < |runs| && Parts(p, ca, runs[..k]).Ok? && Extends(c0, ca) && Extends(ca, c1)
    requires runs[k][0].formula !in c1 || RunPart(p, c1[runs[k][0].formula].formula, runs[k]).Fail?
    ensures Parts(p, c0, runs).Fail?
  {
    PartsExtends(p, ca, c1, runs[..k]);
    PartsStep(p, c1, runs, k);
    PartsFailStays(p, c0, c1, runs, k + 1);
  }

  // ---- FormulaSlice ----

  /** `offset` and `offset + size` (as `uint64`) both lie within the result of `f`, the first check of `FormulaSlice`. */
  predicate SliceInBounds(f: Formula, offset: U64, size: U64)
  {
    offset <= |f.result| && Add64(offset, size) <= |f.result|
  }

  /**
   * `FormulaSlice` of a non-empty window of a formula that is not a
   * concatenation: a slice of a slice re-slices the underlying formula at
   * the summed offset (its offset constant fetched through `GetFormula`),
   * anything else is sliced directly; a wrapped `offset + size` fails.
   */
  function SliceOf(p: Prims, cache: Cache, db: KV, f: Formula, offset: U64, size: U64): (r: Result<Formula>)
    ensures r.Ok? ==> offset + size <= |f.result| && r.value.result == f.result[offset..offset + size]
    ensures r.Ok? && f.opcode != OP_SLICE ==> r.value == SliceFormula(p, f.hash, offset, size, f.result[offset..offset + size])
  {
    var end := Add64(offset, size);
    if f.opcode == OP_SLICE then
      if |f.operands| < 2 then Fail("index out of range")
      else match KnownFormula(p, cache, db, f.operands[1])
        case Fail(m) => Fail(m)
        case Ok(prev) =>
          if |prev.result| < 8 then Fail("index out of range")
          else if end < offset || end > |f.result| then Fail("slice bounds out of range")
          else
            Pow256Facts();
            Ok(SliceFormula(p, f.operands[0], Add64(FromBE(prev.result[..8]), offset), size, f.result[offset..end]))
    else if end < offset || end > |f.result| then Fail("slice bounds out of range")
    else Ok(SliceFormula(p, f.hash, offset, size, f.result[offset..end]))
  }

  /**
   * Slicing composes: a window of a slice of `h` at `o1`, its offset
   * constant cached, is the slice of `h` at `o1 + o2` with the bytes of the
   * original at that place.
   */
  lemma SliceComposition(p: Prims, cache: Cache, db: KV, h: Hash, orig: seq<Byte>, o1: U64, s1: U64, o2: U64, s2: U64)
    requires |orig| < U64_LIMIT && o1 + s1 <= |orig| && s2 > 0 && o2 + s2 <= s1
    requires var c := ConstantNew(p, OP_CONSTANT, BE64(o1)); c.hash in cache && cache[c.hash].formula == c
    ensures var g := SliceFormula(p, h, o1, s1, orig[o1..o1 + s1]);
      SliceOf(p, cache, db, g, o2, s2) == Ok(SliceFormula(p, h, o1 + o2, s2, orig[o1 + o2..o1 + o2 + s2]))
  {
    var g := SliceFormula(p, h, o1, s1, orig[o1..o1 + s1]);
    var c := ConstantNew(p, OP_CONSTANT, BE64(o1));
    assert KnownFormula(p, cache, db, g.operands[1]) == Ok(c);
    assert c.result[..8] == BE64(o1);
    assert FromBE(c.result[..8]) == o1;
    assert Add64(o1, o2) == o1 + o2 && Add64(o2, s2) == o2 + s2;
    assert g.result == orig[o1..o1 + s1];
    var a := orig[o1..o1 + s1][o2..o2 + s2];
    var b := orig[o1 + o2..o1 + o2 + s2];
    assert |a| == |b| == s2;
    forall i | 0 <= i < s2
      ensures a[i] == b[i]
    {
      assert a[i] == orig[o1..o1 + s1][o2 + i] == orig[o1 + o2 + i];
    }
    assert a == b;
  }
}
