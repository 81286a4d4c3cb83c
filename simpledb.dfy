// The formula database (tracer/dep_tracer/simpledb.go): two formula caches
// in front of the persistent formula store, the persistent slot, code,
// code-hash and version stores, the shorterners and the logger.
module SimpleDb {
  import opened Common
  import opened Opcodes
  import opened Formulas
  import opened DepBytes
  import opened Shorterning
  import opened Logging
  import opened FormulaDeps
  import opened SimpleDbLayout

  /** The cache after `ConstantNew`/`FormulaNew` produced `f`: a new hash is added uncommitted, a known one is left alone. */
  function Inserted(c: Cache, f: Formula): (r: Cache)
    ensures Extends(c, r) && f.hash in r && r.Keys == c.Keys + {f.hash}
    ensures f.hash !in c ==> r[f.hash] == Entry(f, false)
  {
    if f.hash in c then c else c[f.hash := Entry(f, false)]
  }

  /** The hashes whose formula is cached but not yet written to the formula DB. */
  function Uncommitted(c: Cache): set<Hash>
  {
    set h | h in c && !c[h].committed
  }

  /** `c1` differs from `c0` at most in `committed` flags that went from false to true. */
  predicate CommitsOnly(c0: Cache, c1: Cache)
  {
    && c0.Keys == c1.Keys
    && (forall h :: h in c0 ==> c1[h].formula == c0[h].formula)
    && (forall h :: h in c0 && c0[h].committed ==> c1[h].committed)
  }

  /** Every cached operand of a formula in `s` is committed. */
  predicate OperandsCommitted(c: Cache, s: set<Hash>)
  {
    forall h, o :: h in s && h in c && o in c[h].formula.operands && o in c ==> c[o].committed
  }

  /** `db1` is `db0` with the formulas of `s` saved under their hashes. */
  ghost predicate SavedAs(db0: KV, db1: KV, c: Cache, s: set<Hash>)
  {
    && (forall k :: k in db1 <==> k in db0 || k in s)
    && (forall k :: k in s && k in c ==> db1[k] == Formulas.Bin(c[k].formula))
    && (forall k :: k in db0 && k !in s ==> db1[k] == db0[k])
  }

  lemma CommitsOnlyTrans(c0: Cache, c1: Cache, c2: Cache)
    requires CommitsOnly(c0, c1) && CommitsOnly(c1, c2)
    ensures CommitsOnly(c0, c2)
  {
  }

  /** What two successive commits saved is what the pair saved together. */
  lemma DoneSplit(c0: Cache, c1: Cache, c2: Cache)
    requires Uncommitted(c1) <= Uncommitted(c0) && Uncommitted(c2) <= Uncommitted(c1)
    ensures Uncommitted(c0) - Uncommitted(c2) == (Uncommitted(c0) - Uncommitted(c1)) + (Uncommitted(c1) - Uncommitted(c2))
  {
  }

  lemma SavedAsTrans(db0: KV, db1: KV, db2: KV, c1: Cache, c2: Cache, s1: set<Hash>, s2: set<Hash>)
    requires SavedAs(db0, db1, c1, s1) && SavedAs(db1, db2, c2, s2) && CommitsOnly(c1, c2)
    ensures SavedAs(db0, db2, c2, s1 + s2)
  {
  }

  lemma OperandsCommittedTrans(c1: Cache, c2: Cache, s1: set<Hash>, s2: set<Hash>)
    requires OperandsCommitted(c1, s1) && OperandsCommitted(c2, s2) && CommitsOnly(c1, c2)
    ensures OperandsCommitted(c2, s1 + s2)
  {
    forall h, o | h in s1 + s2 && h in c2 && o in c2[h].formula.operands && o in c2
      ensures c2[o].committed
    {
      if h !in s2 {
        assert c1[h].formula == c2[h].formula;
      }
    }
  }

  lemma UncommittedAfterCommit(c0: Cache, hash: Hash)
    requires hash in c0 && !c0[hash].committed
    ensures Uncommitted(c0[hash := c0[hash].(committed := true)]) == Uncommitted(c0) - {hash}
    ensures hash in Uncommitted(c0)
  {
  }

  /** The postcondition of committing an uncommitted `hash`, from that of committing its operands. */
  lemma CommitNewFacts(c0: Cache, c2: Cache, db0: KV, db2: KV, hash: Hash)
    requires hash in c0 && !c0[hash].committed && c0[hash].formula.hash == hash
    requires var c1 := c0[hash := c0[hash].(committed := true)];
      var db1 := db0[hash := Formulas.Bin(c0[hash].formula)];
      && CommitsOnly(c1, c2) && Uncommitted(c2) <= Uncommitted(c1)
      && (forall o :: o in c0[hash].formula.operands && o in c2 ==> c2[o].committed)
      && OperandsCommitted(c2, Uncommitted(c1) - Uncommitted(c2))
      && SavedAs(db1, db2, c2, Uncommitted(c1) - Uncommitted(c2))
    ensures CommitsOnly(c0, c2) && Uncommitted(c2) <= Uncommitted(c0) && c2[hash].committed
    ensures OperandsCommitted(c2, Uncommitted(c0) - Uncommitted(c2))
    ensures SavedAs(db0, db2, c2, Uncommitted(c0) - Uncommitted(c2))
  {
    var c1 := c0[hash := c0[hash].(committed := true)];
    var db1 := db0[hash := Formulas.Bin(c0[hash].formula)];
    UncommittedAfterCommit(c0, hash);
    CommitsOnlyTrans(c0, c1, c2);
    assert SavedAs(db0, db1, c1, {hash});
    SavedAsTrans(db0, db1, db2, c1, c2, {hash}, Uncommitted(c1) - Uncommitted(c2));
    assert Uncommitted(c0) - Uncommitted(c2) == {hash} + (Uncommitted(c1) - Uncommitted(c2));
    assert OperandsCommitted(c2, {hash}) by {
      assert c2[hash].formula == c0[hash].formula;
    }
    OperandsCommittedTrans(c2, c2, {hash}, Uncommitted(c1) - Uncommitted(c2));
  }

  lemma SubsetSize<T>(a: set<T>, b: set<T>)
    requires a <= b
    ensures |a| <= |b|
  {
    assert b == a + (b - a);
  }

  /** `s` is the formula `LoadChildHash(parent)` points to, fetched from the cache `c`. */
  predicate ShortOf(m: map<Hash, HashAndProtected>, db: KV, c: Cache, parent: Hash, s: Formula)
  {
    && KnownChild(m, db, parent).Ok?
    && KnownChild(m, db, parent).value.hash in c
    && c[KnownChild(m, db, parent).value.hash].formula == s
  }

  /** A short formula found in a cache stays found in any extension of it. */
  lemma ShortOfExtends(m: map<Hash, HashAndProtected>, db: KV, c0: Cache, c1: Cache, parent: Hash, s: Formula)
    requires Extends(c0, c1) && ShortOf(m, db, c0, parent, s)
    ensures ShortOf(m, db, c1, parent, s)
  {
  }

  /** `sf[j]` is the short formula of `fs[j]`, for every `j`. */
  predicate ShortsOf(m: map<Hash, HashAndProtected>, db: KV, c: Cache, fs: seq<Formula>, sf: seq<Formula>)
  {
    |sf| == |fs| && forall j :: 0 <= j < |fs| ==> ShortOf(m, db, c, fs[j].hash, sf[j])
  }

  lemma ShortsOfAppend(m: map<Hash, HashAndProtected>, db: KV, c0: Cache, c1: Cache, fs: seq<Formula>, sf: seq<Formula>,
                       f: Formula, s: Formula)
    requires ShortsOf(m, db, c0, fs, sf) && Extends(c0, c1) && ShortOf(m, db, c1, f.hash, s)
    ensures ShortsOf(m, db, c1, fs + [f], sf + [s])
  {
    forall j | 0 <= j < |fs|
      ensures ShortOf(m, db, c1, fs[j].hash, sf[j])
    {
      ShortOfExtends(m, db, c0, c1, fs[j].hash, sf[j]);
    }
  }

  lemma ShortsOfExtends(m: map<Hash, HashAndProtected>, db: KV, c0: Cache, c1: Cache, fs: seq<Formula>, sf: seq<Formula>)
    requires ShortsOf(m, db, c0, fs, sf) && Extends(c0, c1)
    ensures ShortsOf(m, db, c1, fs, sf)
  {
    forall j | 0 <= j < |fs|
      ensures ShortOf(m, db, c1, fs[j].hash, sf[j])
    {
      ShortOfExtends(m, db, c0, c1, fs[j].hash, sf[j]);
    }
  }

  /** The first `|children|` operands of a formula have loaded entries, `children` being their effective entries. */
  predicate ChildrenLoaded(m: map<Hash, HashAndProtected>, db: KV, ops: seq<Hash>, children: seq<HashAndProtected>)
  {
    && |children| <= |ops|
    && forall k :: 0 <= k < |children| ==>
         KnownChild(m, db, ops[k]).Ok? && children[k] == EffectiveChild(KnownChild(m, db, ops[k]).value)
  }

  lemma ChildrenLoadedAppend(m: map<Hash, HashAndProtected>, db: KV, ops: seq<Hash>, children: seq<HashAndProtected>, v: HashAndProtected)
    requires ChildrenLoaded(m, db, ops, children) && |children| < |ops| && KnownChild(m, db, ops[|children|]) == Ok(v)
    ensures ChildrenLoaded(m, db, ops, children + [EffectiveChild(v)])
  {
  }

  /** Each child entry names a cached formula, the one at the same position of `fs`. */
  predicate ChildFormulasCached(c: Cache, children: seq<HashAndProtected>, fs: seq<Formula>)
  {
    |children| == |fs| && forall k :: 0 <= k < |children| ==> children[k].hash in c && c[children[k].hash].formula == fs[k]
  }

  lemma ChildFormulasCachedAppend(c0: Cache, c1: Cache, children: seq<HashAndProtected>, fs: seq<Formula>,
                                  child: HashAndProtected, f: Formula)
    requires ChildFormulasCached(c0, children, fs) && Extends(c0, c1)
    requires child.hash in c1 && c1[child.hash].formula == f
    ensures ChildFormulasCached(c1, children + [child], fs + [f])
  {
  }

  /** `LoadChildHash(parent)` succeeds and the short formula it names is cached in `c`. */
  predicate ShortCached(m: map<Hash, HashAndProtected>, db: KV, c: Cache, parent: Hash)
  {
    KnownChild(m, db, parent).Ok? && KnownChild(m, db, parent).value.hash in c
  }

  /**
   * `m1[parent.hash]` is the entry `Shortern` builds for `parent` out of the
   * operand entries `m0` gives (`children`) and the cached formulas they name
   * (`childFormulas`), and the short formula it names is cached.
   */
  predicate ShortenedBy(p: Prims, def: ProtectedDefinition, m0: map<Hash, HashAndProtected>, m1: map<Hash, HashAndProtected>,
                        db: KV, c: Cache, parent: Formula, children: seq<HashAndProtected>, childFormulas: seq<Formula>)
  {
    && |children| == |childFormulas| == |parent.operands|
    && (forall i :: 0 <= i < |children| ==>
          KnownChild(m0, db, parent.operands[i]).Ok? && children[i] == EffectiveChild(KnownChild(m0, db, parent.operands[i]).value))
    && (forall i :: 0 <= i < |children| ==> children[i].hash in c && c[children[i].hash].formula == childFormulas[i])
    && parent.hash in m1 && m1[parent.hash] == ShortEntry(p, def, parent, children, childFormulas)
    && m1[parent.hash].hash in c
  }

  ghost predicate Shortened(p: Prims, def: ProtectedDefinition, m0: map<Hash, HashAndProtected>, m1: map<Hash, HashAndProtected>,
                            db: KV, c: Cache, parent: Formula)
  {
    exists children, childFormulas :: ShortenedBy(p, def, m0, m1, db, c, parent, children, childFormulas)
  }

  /** Later lookups and cache growth keep a shortened entry. */
  lemma ShortenedKeep(p: Prims, def: ProtectedDefinition, m0: map<Hash, HashAndProtected>, m1: map<Hash, HashAndProtected>,
                      m2: map<Hash, HashAndProtected>, db: KV, c1: Cache, c2: Cache, parent: Formula)
    requires Shortened(p, def, m0, m1, db, c1, parent) && GrownByLoads(m1, m2, db) && Extends(c1, c2)
    ensures Shortened(p, def, m0, m2, db, c2, parent)
  {
    var children, childFormulas :| ShortenedBy(p, def, m0, m1, db, c1, parent, children, childFormulas);
    assert ShortenedBy(p, def, m0, m2, db, c2, parent, children, childFormulas);
  }

  lemma GrownExceptTrans(m0: map<Hash, HashAndProtected>, m1: map<Hash, HashAndProtected>, m2: map<Hash, HashAndProtected>, db: KV, h: Hash)
    requires GrownByLoads(m0 - {h}, m1 - {h}, db) && GrownByLoads(m1, m2, db)
    ensures GrownByLoads(m0 - {h}, m2 - {h}, db)
  {
  }

  // ---- committing with shorts ----

  /** The entry `SaveChildHash(h)` writes and `formulasMapping[h]` reads: the cached one, else the zero entry. */
  function ChildOf(m: map<Hash, HashAndProtected>, h: Hash): HashAndProtected
  {
    if h in m then m[h] else NO_ENTRY
  }

  /** `db1` is the mapping DB `db0` with the entries `m` holds for the parents in `s` saved, and nothing else changed. */
  ghost predicate MappingsSaved(m: map<Hash, HashAndProtected>, db0: KV, db1: KV, s: set<Hash>)
  {
    && (forall h :: h in s ==> h in db1 && db1[h] == ChildOf(m, h).Bin())
    && (forall h :: h !in s ==> (h in db1 <==> h in db0))
    && (forall h :: h !in s && h in db0 ==> h in db1 && db1[h] == db0[h])
  }

  lemma MappingsSavedTrans(m: map<Hash, HashAndProtected>, db0: KV, db1: KV, db2: KV, s1: set<Hash>, s2: set<Hash>)
    requires MappingsSaved(m, db0, db1, s1) && MappingsSaved(m, db1, db2, s2)
    ensures MappingsSaved(m, db0, db2, s1 + s2)
  {
  }

  /**
   * A saved entry outlives the cache: after a reset, or in a later run,
   * `LoadChildHash` reads back the entry that was cached when it was saved.
   */
  lemma {:induction false} MappingSavedLoads(m: map<Hash, HashAndProtected>, db0: KV, db1: KV, s: set<Hash>,
                                             h: Hash, later: map<Hash, HashAndProtected>)
    requires MappingsSaved(m, db0, db1, s) && h in s && h in m && h !in later
    requires m[h].sourceHash != ZERO_HASH || !m[h].sourceProtected
    ensures KnownChild(later, db1, h) == Ok(m[h])
  {
    Shorterning.BinRoundTrip(m[h]);
  }

  /** The keys of `s` are all stored in `db`. */
  predicate StoredKeys(db: KV, s: set<Hash>)
  {
    forall h :: h in s ==> h in db
  }

  /** A commit of the uncommitted `hash` is marking it, then committing what its operands reach. */
  lemma MarkedSplit(c0: Cache, c2: Cache, hash: Hash)
    requires hash in c0 && !c0[hash].committed
    requires var c1 := c0[hash := c0[hash].(committed := true)];
      && CommitsOnly(c1, c2) && Uncommitted(c2) <= Uncommitted(c1)
      && (forall o :: o in c0[hash].formula.operands && o in c2 ==> c2[o].committed)
      && OperandsCommitted(c2, Uncommitted(c1) - Uncommitted(c2))
    ensures CommitsOnly(c0, c2) && Uncommitted(c2) <= Uncommitted(c0) && c2[hash].committed
    ensures Uncommitted(c0) - Uncommitted(c2) == {hash} + (Uncommitted(c0[hash := c0[hash].(committed := true)]) - Uncommitted(c2))
    ensures OperandsCommitted(c2, Uncommitted(c0) - Uncommitted(c2))
  {
    var c1 := c0[hash := c0[hash].(committed := true)];
    UncommittedAfterCommit(c0, hash);
    CommitsOnlyTrans(c0, c1, c2);
    assert OperandsCommitted(c2, {hash}) by {
      assert c2[hash].formula == c0[hash].formula;
    }
    OperandsCommittedTrans(c2, c2, {hash}, Uncommitted(c1) - Uncommitted(c2));
  }

  /** Committing one more uncommitted formula `h` of `c1` extends what has been saved since `c0`. */
  lemma CommitOneFacts(c0: Cache, c1: Cache, db0: KV, db1: KV, h: Hash)
    requires CommitsOnly(c0, c1) && Uncommitted(c1) <= Uncommitted(c0) && SavedAs(db0, db1, c1, Uncommitted(c0) - Uncommitted(c1))
    requires h in c1 && !c1[h].committed && c1[h].formula.hash == h
    ensures var c2 := c1[h := c1[h].(committed := true)];
      var db2 := db1[h := Formulas.Bin(c1[h].formula)];
      && CommitsOnly(c0, c2) && Uncommitted(c2) <= Uncommitted(c0)
      && SavedAs(db0, db2, c2, Uncommitted(c0) - Uncommitted(c2))
  {
    var c2 := c1[h := c1[h].(committed := true)];
    var db2 := db1[h := Formulas.Bin(c1[h].formula)];
    UncommittedAfterCommit(c1, h);
    assert SavedAs(db1, db2, c2, {h});
    SavedAsTrans(db0, db1, db2, c1, c2, Uncommitted(c0) - Uncommitted(c1), {h});
    assert Uncommitted(c0) - Uncommitted(c2) == (Uncommitted(c0) - Uncommitted(c1)) + {h};
  }

  /**
   * What a successful with-shorts commit did between two points: the
   * with-shorts cache `c0` to `c1` and the plain cache `f0` to `f1` only
   * got committed, the formula store only grew, and every formula
   * committed in the with-shorts cache had its operands committed too and
   * was stored.
   */
  ghost predicate CommitProgress(c0: Cache, c1: Cache, f0: Cache, f1: Cache, db0: KV, db1: KV)
  {
    && CommitsOnly(c0, c1) && Uncommitted(c1) <= Uncommitted(c0)
    && CommitsOnly(f0, f1) && db0.Keys <= db1.Keys
    && OperandsCommitted(c1, Uncommitted(c0) - Uncommitted(c1))
    && StoredKeys(db1, Uncommitted(c0) - Uncommitted(c1))
  }

  lemma CommitProgressTrans(c0: Cache, c1: Cache, c2: Cache, f0: Cache, f1: Cache, f2: Cache, db0: KV, db1: KV, db2: KV)
    requires CommitProgress(c0, c1, f0, f1, db0, db1) && CommitProgress(c1, c2, f1, f2, db1, db2)
    ensures CommitProgress(c0, c2, f0, f2, db0, db2)
    ensures Uncommitted(c0) - Uncommitted(c2) == (Uncommitted(c0) - Uncommitted(c1)) + (Uncommitted(c1) - Uncommitted(c2))
  {
    DoneSplit(c0, c1, c2);
    OperandsCommittedTrans(c1, c2, Uncommitted(c0) - Uncommitted(c1), Uncommitted(c1) - Uncommitted(c2));
  }

  /**
   * Marking the uncommitted `hash` and storing it (`db1` has it), then
   * committing its operands, is a commit progress from `c0`; what got
   * committed is `hash` and what the operands' commit did.
   */
  lemma CommitProgressNew(c0: Cache, c2: Cache, f0: Cache, f1: Cache, f2: Cache, db0: KV, db1: KV, db2: KV, hash: Hash)
    requires hash in c0 && !c0[hash].committed
    requires CommitsOnly(f0, f1) && db0.Keys + {hash} <= db1.Keys
    requires CommitProgress(c0[hash := c0[hash].(committed := true)], c2, f1, f2, db1, db2)
    requires forall o :: o in c0[hash].formula.operands && o in c2 ==> c2[o].committed
    ensures CommitProgress(c0, c2, f0, f2, db0, db2) && c2[hash].committed
    ensures Uncommitted(c0) - Uncommitted(c2) == {hash} + (Uncommitted(c0[hash := c0[hash].(committed := true)]) - Uncommitted(c2))
  {
    MarkedSplit(c0, c2, hash);
    CommitsOnlyTrans(f0, f1, f2);
  }

  /** Since `c0`/`db0` the formulas only got committed, and each newly committed one was saved. */
  ghost predicate CommittedSaved(c0: Cache, db0: KV, c1: Cache, db1: KV)
  {
    CommitsOnly(c0, c1) && Uncommitted(c1) <= Uncommitted(c0) && SavedAs(db0, db1, c1, Uncommitted(c0) - Uncommitted(c1))
  }

  lemma CommittedSavedTrans(c0: Cache, db0: KV, c1: Cache, db1: KV, c2: Cache, db2: KV)
    requires CommittedSaved(c0, db0, c1, db1) && CommittedSaved(c1, db1, c2, db2)
    ensures CommittedSaved(c0, db0, c2, db2)
  {
    SavedAsTrans(db0, db1, db2, c1, c2, Uncommitted(c0) - Uncommitted(c1), Uncommitted(c1) - Uncommitted(c2));
    assert Uncommitted(c0) - Uncommitted(c2) == (Uncommitted(c0) - Uncommitted(c1)) + (Uncommitted(c1) - Uncommitted(c2));
  }

  /** `CommittedSaved`, and every formula committed since `c0` has its operands committed. */
  ghost predicate CommitDone(c0: Cache, db0: KV, c1: Cache, db1: KV)
  {
    CommittedSaved(c0, db0, c1, db1) && OperandsCommitted(c1, Uncommitted(c0) - Uncommitted(c1))
  }

  lemma CommitDoneTrans(c0: Cache, db0: KV, c1: Cache, db1: KV, c2: Cache, db2: KV)
    requires CommitDone(c0, db0, c1, db1) && CommitDone(c1, db1, c2, db2)
    ensures CommitDone(c0, db0, c2, db2)
  {
    CommittedSavedTrans(c0, db0, c1, db1, c2, db2);
    DoneSplit(c0, c1, c2);
    OperandsCommittedTrans(c1, c2, Uncommitted(c0) - Uncommitted(c1), Uncommitted(c1) - Uncommitted(c2));
  }

  /** The short formula of `hash` under the definition `m` is cached and committed, and the entry of `hash` saved. */
  ghost predicate ShortCommitted(m: map<Hash, HashAndProtected>, hash: Hash, c: Cache, db0: KV, db1: KV)
  {
    ChildOf(m, hash).hash in c && c[ChildOf(m, hash).hash].committed && MappingsSaved(m, db0, db1, {hash})
  }

  /** `MappingsSaved` for every shorterner, given as parallel sequences. */
  ghost predicate AllMappingsSaved(ms: seq<map<Hash, HashAndProtected>>, dbs0: seq<KV>, dbs1: seq<KV>, s: set<Hash>)
  {
    |dbs0| == |ms| && |dbs1| == |ms| && forall k :: 0 <= k < |ms| ==> MappingsSaved(ms[k], dbs0[k], dbs1[k], s)
  }

  lemma AllMappingsSavedTrans(ms: seq<map<Hash, HashAndProtected>>, dbs0: seq<KV>, dbs1: seq<KV>, dbs2: seq<KV>,
                              s1: set<Hash>, s2: set<Hash>)
    requires AllMappingsSaved(ms, dbs0, dbs1, s1) && AllMappingsSaved(ms, dbs1, dbs2, s2)
    ensures AllMappingsSaved(ms, dbs0, dbs2, s1 + s2)
  {
    forall k | 0 <= k < |ms|
      ensures MappingsSaved(ms[k], dbs0[k], dbs2[k], s1 + s2)
    {
      MappingsSavedTrans(ms[k], dbs0[k], dbs1[k], dbs2[k], s1, s2);
    }
  }

  /**
   * The hashes `CommitDEPBytes` commits, in order: the formula of every byte
   * that differs from the formula of the byte before it, the first byte
   * being compared with the zero hash.
   */
  function ChangedFormulas(data: seq<DEPByte>): seq<Hash>
  {
    if |data| == 0 then []
    else
      var n := |data| - 1;
      var prev := if n == 0 then ZERO_HASH else data[n - 1].formula;
      ChangedFormulas(data[..n]) + (if data[n].formula != prev then [data[n].formula] else [])
  }

  /** One more byte adds its formula when it differs from the formula of the byte before. */
  lemma ChangedFormulasStep(data: seq<DEPByte>, i: nat)
    requires i < |data|
    ensures var prev := if i == 0 then ZERO_HASH else data[i - 1].formula;
      ChangedFormulas(data[..i + 1]) == ChangedFormulas(data[..i]) + (if data[i].formula != prev then [data[i].formula] else [])
  {
    assert data[..i + 1][..i] == data[..i];
  }

  /** Every hash of `hs` is cached in `c` and committed. */
  predicate AllCommitted(c: Cache, hs: seq<Hash>)
  {
    forall h :: h in hs ==> h in c && c[h].committed
  }

  /** Every hash of `hs` is cached in `c`. */
  predicate AllCached(c: Cache, hs: seq<Hash>)
  {
    forall h :: h in hs ==> h in c
  }

  lemma AllCommittedKeep(c1: Cache, c2: Cache, hs: seq<Hash>, extra: seq<Hash>)
    requires AllCommitted(c1, hs) && CommitsOnly(c1, c2) && AllCommitted(c2, extra)
    ensures AllCommitted(c2, hs + extra)
  {
  }

  lemma {:induction false} ChangedFormulasPrefix(data: seq<DEPByte>, m: nat, h: Hash)
    requires m <= |data| && h in ChangedFormulas(data[..m])
    ensures h in ChangedFormulas(data)
    decreases |data|
  {
    if m < |data| {
      var n := |data| - 1;
      assert data[..n][..m] == data[..m];
      ChangedFormulasPrefix(data[..n], m, h);
    } else {
      assert data[..m] == data;
    }
  }

  /**
   * Exactly the formulas of the bytes are committed, less a leading run of
   * bytes of the zero hash: every byte's non-zero formula is among them,
   * and each of them is the formula of some byte.
   */
  lemma {:induction false} ChangedFormulasCover(data: seq<DEPByte>)
    ensures forall i :: 0 <= i < |data| && data[i].formula != ZERO_HASH ==> data[i].formula in ChangedFormulas(data)
    ensures forall h :: h in ChangedFormulas(data) ==> exists i :: 0 <= i < |data| && data[i].formula == h
    decreases |data|
  {
    if |data| > 0 {
      var n := |data| - 1;
      var prefix := data[..n];
      ChangedFormulasCover(prefix);
      forall i | 0 <= i < |data| && data[i].formula != ZERO_HASH
        ensures data[i].formula in ChangedFormulas(data)
      {
        if i < n {
          assert prefix[i] == data[i];
        } else if n > 0 && data[n].formula == data[n - 1].formula {
          assert prefix[n - 1] == data[n - 1];
        }
      }
      forall h | h in ChangedFormulas(data)
        ensures exists i :: 0 <= i < |data| && data[i].formula == h
      {
        if h in ChangedFormulas(prefix) {
          var j :| 0 <= j < |prefix| && prefix[j].formula == h;
          assert data[j].formula == h;
        } else {
          assert data[n].formula == h;
        }
      }
    }
  }

  datatype ShortCommitState = ShortCommitState(formulas: Cache, formulasDB: KV, mappingDB: KV)

  /**
   * One iteration of the shorterner loop of `commitFormulaWithShortsInternal`
   * as written: the short formula of `hash` must be cached; when it is
   * already committed the iteration is skipped, `SaveChildHash(hash)`
   * included; otherwise it is saved and committed and the entry is saved.
   */
  function ShortCommitAsWritten(m: map<Hash, HashAndProtected>, s: ShortCommitState, hash: Hash): (r: Result<ShortCommitState>)
    ensures r.Fail? <==> ChildOf(m, hash).hash !in s.formulas
    ensures r.Ok? && !s.formulas[ChildOf(m, hash).hash].committed ==> MappingsSaved(m, s.mappingDB, r.value.mappingDB, {hash})
    ensures r.Ok? && s.formulas[ChildOf(m, hash).hash].committed ==> r.value.mappingDB == s.mappingDB
  {
    var shortHash := ChildOf(m, hash).hash;
    if shortHash !in s.formulas then Fail("short formula is not found")
    else
      var cf1 := s.formulas[shortHash];
      if cf1.committed then Ok(s)
      else Ok(ShortCommitState(s.formulas[shortHash := cf1.(committed := true)],
                               s.formulasDB[cf1.formula.hash := Formulas.Bin(cf1.formula)],
                               s.mappingDB[hash := ChildOf(m, hash).Bin()]))
  }

  /**
   * Two parents `a` and `b` whose entries name the same short formula (two
   * unprotected formulas with equal results both shorten to one constant):
   * committing `a` commits that formula, so committing `b` never saves the
   * entry of `b`, and once the cache is reset `LoadChildHash(b)` fails.
   */
  lemma SharedShortLosesMapping(m: map<Hash, HashAndProtected>, s0: ShortCommitState, a: Hash, b: Hash)
    requires a != b && ChildOf(m, a).hash == ChildOf(m, b).hash && ChildOf(m, a).hash in s0.formulas
    requires b !in s0.mappingDB
    ensures ShortCommitAsWritten(m, s0, a).Ok?
    ensures var s1 := ShortCommitAsWritten(m, s0, a).value;
      && ShortCommitAsWritten(m, s1, b).Ok?
      && b !in ShortCommitAsWritten(m, s1, b).value.mappingDB
      && forall later :: b !in later ==> KnownChild(later, ShortCommitAsWritten(m, s1, b).value.mappingDB, b).Fail?
  {
    var s1 := ShortCommitAsWritten(m, s0, a).value;
    assert s1.formulas[ChildOf(m, b).hash].committed;
  }

  class SimpleDB {
    var formulasWithShorts: Cache
    var formulas: Cache
    var formulasDB: KV
    var slotsDB: KV
    var codesDB: KV
    var codeHashesDB: KV
    var versionsDB: KV
    const shorts: seq<Shorterner>
    const logger: Logger
    const p: Prims

    /**
     * An uncommitted cache entry sits under its formula's own hash (it was
     * made by `ConstantNew`/`FormulaNew`); the shorterners are distinct and
     * hash like this database.
     */
    ghost predicate Valid()
      reads this
    {
      && (forall h :: h in formulas && !formulas[h].committed ==> formulas[h].formula.hash == h)
      && (forall h :: h in formulasWithShorts && !formulasWithShorts[h].committed ==> formulasWithShorts[h].formula.hash == h)
      && (forall i, j :: 0 <= i < j < |shorts| ==> shorts[i] != shorts[j])
      && (forall i :: 0 <= i < |shorts| ==> shorts[i].p == p)
    }

    /**
     * `SimpleDBNew`: the stores as found, one shorterner per definition,
     * and the two zero constants saved into the formula store.
     */
    constructor (p: Prims, defs: seq<ProtectedDefinition>, toLog: LoggerSettings, formulasDB: KV,
                 mappingDBs: seq<KV>, slotsDB: KV, codesDB: KV, codeHashesDB: KV, versionsDB: KV)
      requires |mappingDBs| == |defs|
      ensures Valid() && this.p == p
      ensures formulas == map[] && formulasWithShorts == map[]
      ensures this.formulasDB == formulasDB[InitZeroFormula(p).hash := Formulas.Bin(InitZeroFormula(p))]
                                           [ZeroFormula(p).hash := Formulas.Bin(ZeroFormula(p))]
      ensures this.slotsDB == slotsDB && this.codesDB == codesDB
      ensures this.codeHashesDB == codeHashesDB && this.versionsDB == versionsDB
      ensures |shorts| == |defs| && fresh(shorts) && fresh(logger)
      ensures forall k :: 0 <= k < |defs| ==>
        shorts[k].protected == defs[k] && shorts[k].mappingDB == mappingDBs[k] && shorts[k].mapping == ResetMapping(p, defs[k])
      ensures logger.toLog == toLog && logger.context == EMPTY_CONTEXT && logger.written == []
    {
      this.p := p;
      var iz := InitZeroFormula(p);
      var z := ZeroFormula(p);
      this.formulasDB := formulasDB[iz.hash := Formulas.Bin(iz)][z.hash := Formulas.Bin(z)];
      formulasWithShorts := map[];
      formulas := map[];
      var ss: seq<Shorterner> := [];
      for k := 0 to |defs|
        invariant |ss| == k && fresh(ss)
        invariant forall i, j :: 0 <= i < j < k ==> ss[i] != ss[j]
        invariant forall i :: 0 <= i < k ==>
          ss[i].p == p && ss[i].protected == defs[i] && ss[i].mappingDB == mappingDBs[i] && ss[i].mapping == ResetMapping(p, defs[i])
      {
        var s := new Shorterner(p, defs[k], mappingDBs[k]);
        ss := ss + [s];
      }
      shorts := ss;
      this.slotsDB := slotsDB;
      this.codesDB := codesDB;
      this.codeHashesDB := codeHashesDB;
      this.versionsDB := versionsDB;
      logger := new Logger(toLog);
    }

    // ---- the formula cache ----

    /** `GetFormula`: a cached formula, else the formula decoded from the store, which is then cached as committed. */
    method GetFormula(h: Hash) returns (r: Result<Formula>)
      requires Valid()
      modifies this`formulas
      ensures Valid() && Extends(old(formulas), formulas)
      ensures r == KnownFormula(p, old(formulas), formulasDB, h)
      ensures h in old(formulas) || r.Fail? ==> formulas == old(formulas)
      ensures h !in old(formulas) && r.Ok? ==> formulas == old(formulas)[h := Entry(r.value, true)]
      ensures r.Ok? ==> h in formulas && formulas[h].formula == r.value
    {
      if h in formulas {
        return Ok(formulas[h].formula);
      }
      var val := DBGet(formulasDB, h, false);
      if val.Fail? {
        return Fail(val.msg);
      }
      r := FormulaBin(p, val.value.value);
      if r.Ok? {
        formulas := formulas[h := Entry(r.value, true)];
      }
    }

    method ConstantNew(opcode: Byte, result: seq<Byte>) returns (r: Formula)
      requires Valid()
      modifies this`formulas
      ensures Valid() && r == Formulas.ConstantNew(p, opcode, result)
      ensures formulas == Inserted(old(formulas), r)
    {
      r := Formulas.ConstantNew(p, opcode, result);
      if r.hash in formulas {
        return;
      }
      formulas := formulas[r.hash := Entry(r, false)];
    }

    method FormulaNew(opcode: Byte, result: seq<Byte>, operands: seq<Hash>) returns (r: Formula)
      requires Valid()
      modifies this`formulas
      ensures Valid() && r == Formulas.FormulaNew(p, opcode, result, operands)
      ensures formulas == Inserted(old(formulas), r)
    {
      r := Formulas.FormulaNew(p, opcode, result, operands);
      if r.hash in formulas {
        return;
      }
      formulas := formulas[r.hash := Entry(r, false)];
    }

    /** `ResetFormulas`: both caches emptied and every shorterner reset. */
    method ResetFormulas()
      requires Valid()
      modifies this`formulas, this`formulasWithShorts, shorts
      ensures Valid() && formulas == map[] && formulasWithShorts == map[]
      ensures forall k :: 0 <= k < |shorts| ==>
        shorts[k].mapping == ResetMapping(p, shorts[k].protected) && shorts[k].mappingDB == old(shorts[k].mappingDB)
    {
      formulasWithShorts := map[];
      formulas := map[];
      for k := 0 to |shorts|
        invariant Valid() && formulas == map[] && formulasWithShorts == map[]
        invariant forall i :: 0 <= i < k ==>
          shorts[i].mapping == ResetMapping(p, shorts[i].protected) && shorts[i].mappingDB == old(shorts[i].mappingDB)
        invariant forall i :: k <= i < |shorts| ==> shorts[i].mappingDB == old(shorts[i].mappingDB)
      {
        shorts[k].Reset();
      }
    }

    // ---- committing ----

    /**
     * `commitFormulaInternal`: a missing hash fails unless ignored; an
     * uncommitted formula is saved, marked committed, and its operands are
     * committed in turn (missing ones are skipped); a committed one is left
     * alone, so no formula is saved twice.
     */
    method CommitFormulaInternal(hash: Hash, ignoreExistance: bool) returns (ok: bool)
      requires Valid()
      modifies this`formulas, this`formulasDB
      ensures Valid()
      ensures ok <==> ignoreExistance || hash in old(formulas)
      ensures !ok ==> formulas == old(formulas) && formulasDB == old(formulasDB)
      ensures CommitsOnly(old(formulas), formulas)
      ensures Uncommitted(formulas) <= Uncommitted(old(formulas))
      ensures hash in formulas ==> formulas[hash].committed
      ensures hash in old(formulas) && old(formulas)[hash].committed ==>
        formulas == old(formulas) && formulasDB == old(formulasDB)
      ensures OperandsCommitted(formulas, Uncommitted(old(formulas)) - Uncommitted(formulas))
      ensures SavedAs(old(formulasDB), formulasDB, formulas, Uncommitted(old(formulas)) - Uncommitted(formulas))
      decreases |Uncommitted(formulas)|, 2
    {
      if hash !in formulas {
        return ignoreExistance;
      }
      ok := true;
      if !formulas[hash].committed {
        CommitNew(hash);
      }
    }

    /** The uncommitted case: save the formula, mark it committed and commit its operands. */
    method CommitNew(hash: Hash)
      requires Valid() && hash in formulas && !formulas[hash].committed
      modifies this`formulas, this`formulasDB
      ensures Valid()
      ensures CommitsOnly(old(formulas), formulas)
      ensures Uncommitted(formulas) <= Uncommitted(old(formulas))
      ensures formulas[hash].committed
      ensures OperandsCommitted(formulas, Uncommitted(old(formulas)) - Uncommitted(formulas))
      ensures SavedAs(old(formulasDB), formulasDB, formulas, Uncommitted(old(formulas)) - Uncommitted(formulas))
      decreases |Uncommitted(formulas)|, 1
    {
      var cf := formulas[hash];
      ghost var c0 := formulas;
      ghost var db0 := formulasDB;
      formulasDB := formulasDB[cf.formula.hash := Formulas.Bin(cf.formula)];
      formulas := formulas[hash := cf.(committed := true)];
      ghost var c1 := formulas;
      ghost var db1 := formulasDB;
      UncommittedAfterCommit(c0, hash);
      SubsetSize(Uncommitted(formulas), Uncommitted(c0) - {hash});
      CommitOperands(cf.formula.operands, |Uncommitted(c0)|);
      CommitNewFacts(c0, formulas, db0, formulasDB, hash);
    }

    /** The loop of `commitFormulaInternal` over the operands, each committed with existence ignored. */
    method CommitOperands(ops: seq<Hash>, ghost bound: nat)
      requires Valid() && |Uncommitted(formulas)| < bound
      modifies this`formulas, this`formulasDB
      ensures Valid()
      ensures CommitsOnly(old(formulas), formulas) && Uncommitted(formulas) <= Uncommitted(old(formulas))
      ensures forall k :: 0 <= k < |ops| && ops[k] in formulas ==> formulas[ops[k]].committed
      ensures OperandsCommitted(formulas, Uncommitted(old(formulas)) - Uncommitted(formulas))
      ensures SavedAs(old(formulasDB), formulasDB, formulas, Uncommitted(old(formulas)) - Uncommitted(formulas))
      decreases bound, 0
    {
      ghost var c1 := formulas;
      for i := 0 to |ops|
        invariant Valid()
        invariant CommitsOnly(c1, formulas) && Uncommitted(formulas) <= Uncommitted(c1)
        invariant forall k :: 0 <= k < i && ops[k] in formulas ==> formulas[ops[k]].committed
        invariant OperandsCommitted(formulas, Uncommitted(c1) - Uncommitted(formulas))
        invariant SavedAs(old(formulasDB), formulasDB, formulas, Uncommitted(c1) - Uncommitted(formulas))
      {
        SubsetSize(Uncommitted(formulas), Uncommitted(c1));
        ghost var c2 := formulas;
        ghost var db2 := formulasDB;
        var _ := CommitFormulaInternal(ops[i], true);
        CommitsOnlyTrans(c1, c2, formulas);
        forall k | 0 <= k <= i && ops[k] in formulas
          ensures formulas[ops[k]].committed
        {
          if k < i {
            assert ops[k] in c2 && c2[ops[k]].committed;
          }
        }
        DoneSplit(c1, c2, formulas);
        OperandsCommittedTrans(c2, formulas, Uncommitted(c1) - Uncommitted(c2), Uncommitted(c2) - Uncommitted(formulas));
        SavedAsTrans(old(formulasDB), db2, formulasDB, c2, formulas,
                     Uncommitted(c1) - Uncommitted(c2), Uncommitted(c2) - Uncommitted(formulas));
      }
    }

    method CommitFormula(hash: Hash) returns (ok: bool)
      requires Valid()
      modifies this`formulas, this`formulasDB
      ensures Valid()
      ensures ok <==> hash in old(formulas)
      ensures CommitsOnly(old(formulas), formulas)
      ensures ok ==> formulas[hash].committed
      ensures OperandsCommitted(formulas, Uncommitted(old(formulas)) - Uncommitted(formulas))
      ensures SavedAs(old(formulasDB), formulasDB, formulas, Uncommitted(old(formulas)) - Uncommitted(formulas))
    {
      ok := CommitFormulaInternal(hash, false);
    }
  

    // ---- committing the formulas of bytes ----

    /**
     * `CommitDEPBytes`: commits the formula of each byte where it changes
     * (`ChangedFormulas`); a formula missing from the cache fails.
     */
    method CommitDEPBytes(data: seq<DEPByte>) returns (ok: bool)
      requires Valid()
      modifies this`formulas, this`formulasDB
      ensures Valid() && CommitDone(old(formulas), old(formulasDB), formulas, formulasDB)
      ensures ok <==> AllCached(old(formulas), ChangedFormulas(data))
      ensures ok ==> AllCommitted(formulas, ChangedFormulas(data))
    {
      var prevFormula := ZERO_HASH;
      for i := 0 to |data|
        invariant Valid() && CommitDone(old(formulas), old(formulasDB), formulas, formulasDB)
        invariant prevFormula == if i == 0 then ZERO_HASH else data[i - 1].formula
        invariant AllCommitted(formulas, ChangedFormulas(data[..i]))
      {
        ghost var c1 := formulas;
        ghost var db1 := formulasDB;
        ChangedFormulasStep(data, i);
        var curFormula := data[i].formula;
        if curFormula != prevFormula {
          ok := CommitChange(curFormula, ChangedFormulas(data[..i]));
          CommitDoneTrans(old(formulas), old(formulasDB), c1, db1, formulas, formulasDB);
          if !ok {
            ChangedFormulasPrefix(data, i + 1, curFormula);
            return;
          }
          prevFormula := curFormula;
        }
      }
      assert data[..|data|] == data;
      ok := true;
    }

    /** One commit of `CommitDEPBytes`: `CommitFormula`, keeping the formulas committed before. */
    method CommitChange(h: Hash, ghost done: seq<Hash>) returns (ok: bool)
      requires Valid() && AllCommitted(formulas, done)
      modifies this`formulas, this`formulasDB
      ensures Valid() && CommitDone(old(formulas), old(formulasDB), formulas, formulasDB)
      ensures ok <==> h in old(formulas)
      ensures ok ==> AllCommitted(formulas, done + [h])
    {
      ok := CommitFormula(h);
      if ok {
        AllCommittedKeep(old(formulas), formulas, done, [h]);
      }
    }

    // ---- dependency formulas ----

    /**
     * `FormulaDep`: the bytes are cut into runs of consecutive positions of
     * one formula; a run covering a whole formula stands for it, any other is
     * sliced out of it; one part is returned as is, several are concatenated.
     */
    method FormulaDep(val: seq<DEPByte>) returns (r: Result<Formula>)
      requires Valid()
      modifies this`formulas
      ensures Valid() && Extends(old(formulas), formulas)
      ensures |val| == 0 ==> r == Ok(Formulas.FormulaNew(p, OP_CONCAT, [], []))
      ensures |val| > 0 && r.Ok? ==>
        Parts(p, formulas, Runs(val)).Ok? && r == DepFormula(p, formulas, Parts(p, formulas, Runs(val)).value)
      ensures |val| > 0 && Parts(p, old(formulas), Runs(val)).Ok? ==> r.Ok?
    {
      if |val| == 0 {
        var f := FormulaNew(OP_CONCAT, [], []);
        return Ok(f);
      }
      var runs := SplitRuns(val);
      var parts, res, valBin := DepParts(runs);
      if parts.Fail? {
        return Fail(parts.msg);
      }
      if |res| == 1 {
        r := GetFormula(res[0]);
      } else {
        ghost var cl := formulas;
        var f := FormulaNew(OP_CONCAT, valBin, res);
        PartsExtends(p, cl, formulas, runs);
        r := Ok(f);
      }
    }

    /** The second loop of `FormulaDep`: the part of every run, with their hashes and bytes. */
    method DepParts(runs: seq<seq<DEPByte>>) returns (r: Result<seq<Part>>, res: seq<Hash>, valBin: seq<Byte>)
      requires Valid() && forall k :: 0 <= k < |runs| ==> |runs[k]| > 0
      modifies this`formulas
      ensures Valid() && Extends(old(formulas), formulas)
      ensures r.Ok? ==> Parts(p, formulas, runs) == r && res == PartHashes(r.value) && valBin == PartBytes(r.value)
      ensures r.Ok? ==> forall j :: 0 <= j < |r.value| ==> r.value[j].hash in formulas
      ensures r.Fail? ==> Parts(p, old(formulas), runs).Fail?
    {
      res := [];
      valBin := [];
      var parts: seq<Part> := [];
      for k := 0 to |runs|
        invariant Valid() && Extends(old(formulas), formulas)
        invariant Parts(p, formulas, runs[..k]) == Ok(parts)
        invariant res == PartHashes(parts) && valBin == PartBytes(parts)
        invariant forall j :: 0 <= j < |parts| ==> parts[j].hash in formulas
      {
        ghost var ca := formulas;
        var part := RunPartOf(runs[k]);
        if part.Fail? {
          PartsFail(p, old(formulas), ca, formulas, runs, k);
          return Fail(part.msg), res, valBin;
        }
        PartsAppend(p, ca, formulas, runs, k, parts, part.value);
        res := res + [part.value.hash];
        valBin := valBin + part.value.bytes;
        parts := parts + [part.value];
      }
      assert runs[..|runs|] == runs;
      r := Ok(parts);
    }

    /** One iteration of the second loop of `FormulaDep`: the part a run stands for. */
    method RunPartOf(run: seq<DEPByte>) returns (r: Result<Part>)
      requires Valid() && |run| > 0
      modifies this`formulas
      ensures Valid() && Extends(old(formulas), formulas)
      ensures r.Ok? ==> run[0].formula in formulas && r == RunPart(p, formulas[run[0].formula].formula, run)
      ensures r.Ok? ==> r.value.hash in formulas
      ensures r.Fail? ==> run[0].formula !in formulas || RunPart(p, formulas[run[0].formula].formula, run).Fail?
    {
      var rangeFirst := run[0].pos;
      var rangeSize := RunSize(run);
      var formulaHash := run[0].formula;
      var g := GetFormula(formulaHash);
      if g.Fail? {
        return Fail(g.msg);
      }
      var formula := g.value;
      if rangeFirst == 0 && rangeSize == |formula.result| {
        return Ok(Part(formulaHash, formula.result));
      }
      var offsetOp := ConstantNew(OP_CONSTANT, BE64(rangeFirst));
      var sizeOp := ConstantNew(OP_CONSTANT, BE64(rangeSize));
      var rangeEnd := Add64(rangeFirst, rangeSize);
      if rangeEnd < rangeFirst || rangeEnd > |formula.result| {
        return Fail("slice bounds out of range");
      }
      var valBinSlice := formula.result[rangeFirst..rangeEnd];
      var slice := FormulaNew(OP_SLICE, valBinSlice, [formulaHash, offsetOp.hash, sizeOp.hash]);
      r := Ok(Part(slice.hash, valBinSlice));
    }

    /** The first loop of `FormulaDep`: a byte joins the current run when it continues it. */
    static method SplitRuns(val: seq<DEPByte>) returns (runs: seq<seq<DEPByte>>)
      ensures runs == Runs(val)
    {
      var byteRanges: seq<seq<DEPByte>> := [];
      var byteRange: seq<DEPByte> := [];
      for i := 0 to |val|
        invariant i == 0 ==> byteRanges == [] && byteRange == []
        invariant i > 0 ==> |byteRange| > 0 && byteRanges + [byteRange] == Runs(val[..i])
      {
        var b := val[i];
        if |byteRange| == 0 {
          RunsFirst(val);
          byteRange := [b];
        } else {
          RunsExtend(val, i, byteRanges, byteRange);
          var prevB := byteRange[|byteRange| - 1];
          if prevB.formula == b.formula && Next(prevB.pos) == b.pos {
            byteRange := byteRange + [b];
          } else {
            byteRanges := byteRanges + [byteRange];
            byteRange := [b];
          }
        }
      }
      if |byteRange| > 0 {
        byteRanges := byteRanges + [byteRange];
      }
      assert val[..|val|] == val;
      runs := byteRanges;
    }

    /** How deep `FormulaSlice` follows concatenations inside concatenations. */
    const SLICE_FUEL: nat := 1024

    /**
     * `FormulaSlice`: a window out of the store's view of `f`; out-of-range
     * windows fail, an empty one is the empty concatenation, a slice is
     * re-sliced, a concatenation is sliced operand by operand.
     */
    method FormulaSlice(f: Formula, offset: U64, size: U64) returns (r: Result<Formula>)
      requires Valid()
      modifies this`formulas
      ensures Valid() && Extends(old(formulas), formulas)
      ensures !SliceInBounds(f, offset, size) ==> r.Fail?
      ensures SliceInBounds(f, offset, size) && size == 0 ==> r == Ok(Formulas.FormulaNew(p, OP_CONCAT, [], []))
      ensures SliceInBounds(f, offset, size) && size > 0 && f.opcode != OP_CONCAT ==>
        r == SliceOf(p, old(formulas), formulasDB, f, offset, size)
    {
      r := FormulaSliceFuel(f, offset, size, SLICE_FUEL);
    }

    method FormulaSliceFuel(f: Formula, offset: U64, size: U64, fuel: nat) returns (r: Result<Formula>)
      requires Valid()
      modifies this`formulas
      ensures Valid() && Extends(old(formulas), formulas)
      ensures !SliceInBounds(f, offset, size) ==> r.Fail?
      ensures SliceInBounds(f, offset, size) && size == 0 ==> r == Ok(Formulas.FormulaNew(p, OP_CONCAT, [], []))
      ensures SliceInBounds(f, offset, size) && size > 0 && f.opcode != OP_CONCAT ==>
        r == SliceOf(p, old(formulas), formulasDB, f, offset, size)
      decreases fuel
    {
      var offset1 := Add64(offset, size);
      if offset > |f.result| || offset1 > |f.result| {
        return Fail("Out of bounds");
      }
      if size == 0 {
        var e := FormulaNew(OP_CONCAT, [], []);
        return Ok(e);
      }
      if f.opcode == OP_CONCAT {
        r := ConcatSlice(f, offset, size, fuel);
      } else {
        r := SliceLeaf(f, offset, size);
      }
    }

    /** `FormulaSlice` of a formula that is not a concatenation: a slice is re-sliced, anything else is wrapped. */
    method SliceLeaf(f: Formula, offset: U64, size: U64) returns (r: Result<Formula>)
      requires Valid() && SliceInBounds(f, offset, size) && size > 0 && f.opcode != OP_CONCAT
      modifies this`formulas
      ensures Valid() && Extends(old(formulas), formulas)
      ensures r == SliceOf(p, old(formulas), formulasDB, f, offset, size)
    {
      if f.opcode == OP_SLICE {
        r := Reslice(f, offset, size);
      } else {
        r := SliceWrap(f.hash, offset, f.result, offset, size);
        assert r == SliceOf(p, old(formulas), formulasDB, f, offset, size);
      }
    }

    /** A slice of a slice: the underlying formula at the summed offset, read from the offset constant. */
    method Reslice(f: Formula, offset: U64, size: U64) returns (r: Result<Formula>)
      requires Valid() && SliceInBounds(f, offset, size) && size > 0 && f.opcode == OP_SLICE
      modifies this`formulas
      ensures Valid() && Extends(old(formulas), formulas)
      ensures r == SliceOf(p, old(formulas), formulasDB, f, offset, size)
    {
      if |f.operands| < 2 {
        return Fail("index out of range");
      }
      var prevOffsetOp := GetFormula(f.operands[1]);
      if prevOffsetOp.Fail? {
        return Fail(prevOffsetOp.msg);
      }
      if |prevOffsetOp.value.result| < 8 {
        return Fail("index out of range");
      }
      Pow256Facts();
      var prevOffset: U64 := FromBE(prevOffsetOp.value.result[..8]);
      r := SliceWrap(f.operands[0], Add64(prevOffset, offset), f.result, offset, size);
    }

    /**
     * The slice formula of `h` at `at`, `size` long, whose bytes are the
     * window of `result` at `offset`; a wrapped `offset + size` fails.
     */
    method SliceWrap(h: Hash, at: U64, result: seq<Byte>, offset: U64, size: U64) returns (r: Result<Formula>)
      requires Valid() && offset <= |result| && Add64(offset, size) <= |result|
      modifies this`formulas
      ensures Valid() && Extends(old(formulas), formulas)
      ensures var end := Add64(offset, size);
        r == if end < offset then Fail("slice bounds out of range")
             else Ok(SliceFormula(p, h, at, size, result[offset..end]))
    {
      var offset1 := Add64(offset, size);
      var offsetOp := ConstantNew(OP_CONSTANT, BE64(at));
      var sizeOp := ConstantNew(OP_CONSTANT, BE64(size));
      if offset1 < offset {
        return Fail("slice bounds out of range");
      }
      var s := FormulaNew(OP_SLICE, result[offset..offset1], [h, offsetOp.hash, sizeOp.hash]);
      r := Ok(s);
    }

    /**
     * The concatenation case of `FormulaSlice`: the operands are walked with
     * their `uint64` start `i` and end `j`; an operand inside the window is
     * kept whole, one that straddles an edge is sliced, and the walk stops at
     * the operand that reaches the window's end.
     */
    method ConcatSlice(f: Formula, offset: U64, size: U64, fuel: nat) returns (r: Result<Formula>)
      requires Valid()
      modifies this`formulas
      ensures Valid() && Extends(old(formulas), formulas)
      decreases fuel, 0
    {
      var offset1 := Add64(offset, size);
      var byteParts: seq<Byte> := [];
      var hashParts: seq<Hash> := [];
      var i: U64 := 0;
      var k := 0;
      while k < |f.operands|
        invariant Valid() && Extends(old(formulas), formulas) && 0 <= k <= |f.operands|
      {
        var g := GetFormula(f.operands[k]);
        if g.Fail? {
          return Fail(g.msg);
        }
        var formula1 := g.value;
        var j := Add64(i, |formula1.result| % U64_LIMIT);
        if j >= offset {
          if i >= offset && j <= offset1 {
            byteParts := byteParts + formula1.result;
            hashParts := hashParts + [formula1.hash];
          } else {
            var le: U64, si: U64;
            if i < offset && j > offset1 {
              le, si := offset - i, Sub64(offset1, offset);
            } else if i < offset {
              le, si := offset - i, j - offset;
            } else {
              le, si := 0, Sub64(offset1, i);
            }
            if si > 0 {
              if fuel == 0 {
                return Fail("formula nesting too deep");
              }
              var fo := FormulaSliceFuel(formula1, le, si, fuel - 1);
              if fo.Fail? {
                return fo;
              }
              byteParts := byteParts + fo.value.result;
              hashParts := hashParts + [fo.value.hash];
            }
          }
        }
        if offset1 <= j {
          break;
        }
        i := j;
        k := k + 1;
      }
      if |hashParts| == 1 {
        r := GetFormula(hashParts[0]);
      } else {
        var c := FormulaNew(OP_CONCAT, byteParts, hashParts);
        r := Ok(c);
      }
    }

    // ---- shortening ----

    /**
     * `Shorterner.Shortern`, over this database's formulas: the operand
     * entries are loaded (an entry with a source stands for its source), the
     * formulas they point to are fetched, and the parent's entry becomes the
     * one the shortening rules give.
     */
    method Shortern(short: Shorterner, parent: Formula)
      returns (ok: bool, ghost children: seq<HashAndProtected>, ghost childFormulas: seq<Formula>)
      requires Valid() && short in shorts
      modifies short, this`formulas
      ensures Valid() && Extends(old(formulas), formulas)
      ensures short.mappingDB == old(short.mappingDB)
      ensures ok ==> |children| == |childFormulas| == |parent.operands|
      ensures ok ==> forall i :: 0 <= i < |children| ==>
        KnownChild(old(short.mapping), short.mappingDB, parent.operands[i]).Ok?
        && children[i] == EffectiveChild(KnownChild(old(short.mapping), short.mappingDB, parent.operands[i]).value)
      ensures ok ==> forall i :: 0 <= i < |children| ==>
        children[i].hash in formulas && formulas[children[i].hash].formula == childFormulas[i]
      ensures ok ==> parent.hash in short.mapping && short.mapping[parent.hash] == ShortEntry(p, short.protected, parent, children, childFormulas)
      ensures ok ==> short.mapping[parent.hash].hash in formulas
      ensures GrownByLoads(old(short.mapping) - {parent.hash}, short.mapping - {parent.hash}, short.mappingDB)
    {
      var formulaOps, protected, sourceHash, sourceProtected;
      ok, formulaOps, protected, sourceHash, sourceProtected, children := ShortChildren(short, parent);
      childFormulas := formulaOps;
      if !ok {
        return;
      }
      ghost var m1 := short.mapping;
      ShortEntryCases(p, short.protected, parent, children, childFormulas);
      var entry: HashAndProtected;
      if protected && parent.opcode == OP_CONCAT {
        var ops := MergeConstants(formulaOps);
        var childFormula := FormulaNew(OP_CONCAT, parent.result, ops);
        entry := HashAndProtected(childFormula.hash, true, ZERO_HASH, false);
      } else if protected {
        var ops := HashesOf(formulaOps);
        var childFormula := FormulaNew(parent.opcode, parent.result, ops);
        if p.isAddressable(parent.opcode) {
          entry := HashAndProtected(childFormula.hash, true, sourceHash, sourceProtected);
        } else {
          entry := HashAndProtected(childFormula.hash, true, ZERO_HASH, false);
        }
      } else {
        var childFormula := ConstantNew(OP_CONSTANT, parent.result);
        entry := HashAndProtected(childFormula.hash, false, ZERO_HASH, false);
      }
      short.mapping := short.mapping[parent.hash := entry];
    }

    /** The protected (non-concat) loop of `Shortern`: the hashes of the operand formulas, in order. */
    static method HashesOf(fs: seq<Formula>) returns (ops: seq<Hash>)
      ensures ops == seq(|fs|, i requires 0 <= i < |fs| => fs[i].hash)
    {
      ops := [];
      for k := 0 to |fs|
        invariant ops == seq(k, i requires 0 <= i < k => fs[i].hash)
      {
        ops := ops + [fs[k].hash];
      }
    }

    /** The operand loop of `Shortern`. */
    method ShortChildren(short: Shorterner, parent: Formula)
      returns (ok: bool, formulaOps: seq<Formula>, protected: bool, sourceHash: Hash, sourceProtected: bool,
               ghost children: seq<HashAndProtected>)
      requires Valid() && short in shorts
      modifies short, this`formulas
      ensures Valid() && Extends(old(formulas), formulas)
      ensures short.mappingDB == old(short.mappingDB) && GrownByLoads(old(short.mapping), short.mapping, short.mappingDB)
      ensures ok ==> |children| == |formulaOps| == |parent.operands|
      ensures ok ==> forall i :: 0 <= i < |children| ==>
        KnownChild(old(short.mapping), short.mappingDB, parent.operands[i]).Ok?
        && children[i] == EffectiveChild(KnownChild(old(short.mapping), short.mappingDB, parent.operands[i]).value)
      ensures ok ==> forall i :: 0 <= i < |children| ==>
        children[i].hash in formulas && formulas[children[i].hash].formula == formulaOps[i]
      ensures ok ==> protected == Protection(p, short.protected, parent.opcode, children)
      ensures ok && p.isAddressable(parent.opcode) && |children| > 0 ==>
        sourceHash == children[0].hash && sourceProtected == children[0].protected
      ensures ok && |children| == 0 ==> sourceHash == ZERO_HASH && !sourceProtected
    {
      formulaOps := [];
      children := [];
      protected := IsProtected(short.protected, parent.opcode);
      var isSource := p.isAddressable(parent.opcode);
      sourceHash := ZERO_HASH;
      sourceProtected := false;
      ghost var m00 := short.mapping;
      ghost var db := short.mappingDB;
      for i := 0 to |parent.operands|
        invariant Valid() && Extends(old(formulas), formulas)
        invariant short.mappingDB == db && GrownByLoads(m00, short.mapping, db)
        invariant |children| == i
        invariant ChildrenLoaded(m00, db, parent.operands, children)
        invariant ChildFormulasCached(formulas, children, formulaOps)
        invariant protected == Protection(p, short.protected, parent.opcode, children)
        invariant isSource && i > 0 ==> sourceHash == children[0].hash && sourceProtected == children[0].protected
        invariant i == 0 ==> sourceHash == ZERO_HASH && !sourceProtected
      {
        var cok, child, f := LoadChild(short, parent, i, m00, db, children, formulaOps);
        if !cok {
          return false, formulaOps, protected, sourceHash, sourceProtected, children;
        }
        ProtectionAppend(p, short.protected, parent.opcode, children, child);
        if isSource {
          if i == 0 {
            sourceHash := child.hash;
            sourceProtected := child.protected;
            protected := protected || child.protected;
          }
        } else {
          protected := protected || child.protected;
        }
        children := children + [child];
        formulaOps := formulaOps + [f];
      }
      ok := true;
    }

    /**
     * One operand of `Shortern`: its entry, with a source entry standing in
     * for an addressable one, and the cached formula the entry names.
     */
    method LoadChild(short: Shorterner, parent: Formula, i: nat, ghost m00: map<Hash, HashAndProtected>, ghost db: KV,
                     ghost children: seq<HashAndProtected>, formulaOps: seq<Formula>)
      returns (ok: bool, child: HashAndProtected, f: Formula)
      requires Valid() && short in shorts && i < |parent.operands| && |children| == i
      requires short.mappingDB == db && GrownByLoads(m00, short.mapping, db)
      requires ChildrenLoaded(m00, db, parent.operands, children) && ChildFormulasCached(formulas, children, formulaOps)
      modifies short, this`formulas
      ensures Valid() && Extends(old(formulas), formulas)
      ensures short.mappingDB == db && GrownByLoads(m00, short.mapping, db)
      ensures ok ==> ChildrenLoaded(m00, db, parent.operands, children + [child])
      ensures ok ==> ChildFormulasCached(formulas, children + [child], formulaOps + [f])
    {
      ghost var m0 := short.mapping;
      var loaded := short.LoadChildHash(parent.operands[i]);
      if loaded.Fail? {
        return false, NO_ENTRY, InitZeroFormula(p);
      }
      GrownByLoadsTrans(m00, m0, short.mapping, db);
      GrownByLoadsKnown(m00, m0, db, parent.operands[i]);
      child := loaded.value;
      if child.sourceHash != ZERO_HASH {
        child := HashAndProtected(child.sourceHash, child.sourceProtected, ZERO_HASH, false);
      } else {
        child := child.(sourceProtected := false);
      }
      assert child == EffectiveChild(loaded.value);
      ChildrenLoadedAppend(m00, db, parent.operands, children, loaded.value);
      ghost var c0 := formulas;
      var g := GetFormula(child.hash);
      if g.Fail? {
        return false, child, InitZeroFormula(p);
      }
      ChildFormulasCachedAppend(c0, formulas, children, formulaOps, child, g.value);
      ok, f := true, g.value;
    }

    /**
     * The protected-concat loop of `Shortern`: consecutive constant operands
     * are merged into one constant, which is created and takes their place.
     */
    method MergeConstants(formulaOps: seq<Formula>) returns (ops: seq<Hash>)
      requires Valid()
      modifies this`formulas
      ensures Valid() && Extends(old(formulas), formulas)
      ensures ops == PieceHashes(p, MergeRuns(formulaOps, []))
    {
      ops := [];
      var constData: seq<Byte> := [];
      for k := 0 to |formulaOps|
        invariant Valid() && Extends(old(formulas), formulas)
        invariant ops + PieceHashes(p, MergeRuns(formulaOps[k..], constData)) == PieceHashes(p, MergeRuns(formulaOps, []))
      {
        var op := formulaOps[k];
        if op.opcode == OP_CONSTANT {
          MergeStepHashes(p, formulaOps, k, constData);
          constData := constData + op.result;
        } else {
          MergeStepOps(p, formulaOps, k, constData, ops);
          var flush := FlushConstant(constData);
          ops := ops + flush + [op.hash];
          constData := [];
        }
      }
      MergeEndOps(p, formulaOps, constData);
      var flush := FlushConstant(constData);
      ops := ops + flush;
    }

    /** The merged constant of a pending run, created, or nothing when the run is empty. */
    method FlushConstant(constData: seq<Byte>) returns (flush: seq<Hash>)
      requires Valid()
      modifies this`formulas
      ensures Valid() && Extends(old(formulas), formulas)
      ensures flush == if |constData| > 0 then [Formulas.ConstantNew(p, OP_CONSTANT, constData).hash] else []
    {
      flush := [];
      if |constData| > 0 {
        var constFormula := ConstantNew(OP_CONSTANT, constData);
        flush := [constFormula.hash];
      }
    }

    // ---- logging (logger.go) ----

    /** The definitions' names, in order. */
    function Names(): (r: seq<string>)
      ensures |r| == |shorts| && forall k :: 0 <= k < |shorts| ==> r[k] == shorts[k].protected.name
    {
      seq(|shorts|, k requires 0 <= k < |shorts| => shorts[k].protected.name)
    }

    /** The inner loop of `logFormulasWithShorts`: the short formula of every formula under one definition. */
    method ShortFormulasOf(short: Shorterner, fs: seq<Formula>) returns (ok: bool, sf: seq<Formula>)
      requires Valid() && short in shorts
      modifies short, this`formulas
      ensures Valid() && Extends(old(formulas), formulas)
      ensures short.mappingDB == old(short.mappingDB) && GrownByLoads(old(short.mapping), short.mapping, short.mappingDB)
      ensures ok ==> ShortsOf(old(short.mapping), short.mappingDB, formulas, fs, sf)
    {
      sf := [];
      for i := 0 to |fs|
        invariant Valid() && Extends(old(formulas), formulas)
        invariant short.mappingDB == old(short.mappingDB) && GrownByLoads(old(short.mapping), short.mapping, short.mappingDB)
        invariant ShortsOf(old(short.mapping), short.mappingDB, formulas, fs[..i], sf)
      {
        ghost var m0 := short.mapping;
        ghost var c0 := formulas;
        var sok, s := FetchShort(short, fs[i].hash);
        if !sok {
          return false, sf;
        }
        GrownByLoadsTrans(old(short.mapping), m0, short.mapping, short.mappingDB);
        GrownByLoadsKnown(old(short.mapping), m0, short.mappingDB, fs[i].hash);
        assert fs[..i + 1] == fs[..i] + [fs[i]];
        ShortsOfAppend(old(short.mapping), short.mappingDB, c0, formulas, fs[..i], sf, fs[i], s);
        sf := sf + [s];
      }
      assert fs[..|fs|] == fs;
      ok := true;
    }

    /**
     * The short formulas of `fs` under every shorterner in turn, as the
     * inner loops of `logFormulasWithShorts` find them; `false` where a
     * lookup panics.
     */
    method AllShortFormulas(fs: seq<Formula>) returns (ok: bool, sfs: seq<seq<Formula>>)
      requires Valid()
      modifies this`formulas, shorts
      ensures Valid() && Extends(old(formulas), formulas)
      ensures forall k :: 0 <= k < |shorts| ==>
        shorts[k].mappingDB == old(shorts[k].mappingDB) && GrownByLoads(old(shorts[k].mapping), shorts[k].mapping, shorts[k].mappingDB)
      ensures ok ==> |sfs| == |shorts| && forall k :: 0 <= k < |shorts| ==>
        ShortsOf(old(shorts[k].mapping), shorts[k].mappingDB, formulas, fs, sfs[k])
    {
      ghost var ms0 := Mappings();
      ghost var dbs0 := MappingDBs();
      sfs := [];
      for k := 0 to |shorts|
        invariant Valid() && Extends(old(formulas), formulas)
        invariant ShortsUpTo(k, fs, ms0, dbs0, sfs)
      {
        var sok, sf := ShortsAt(k, fs, ms0, dbs0, sfs);
        if !sok {
          return false, sfs;
        }
        sfs := sfs + [sf];
      }
      ok := true;
    }

    /** The shorterners before `k` have found the short formulas `sfs`; those from `k` on are untouched. */
    ghost predicate ShortsUpTo(k: nat, fs: seq<Formula>, ms0: seq<map<Hash, HashAndProtected>>, dbs0: seq<KV>, sfs: seq<seq<Formula>>)
      reads this, shorts
    {
      && |ms0| == |dbs0| == |shorts| && k <= |shorts| && |sfs| == k
      && forall j :: 0 <= j < |shorts| ==>
           && shorts[j].mappingDB == dbs0[j]
           && GrownByLoads(ms0[j], shorts[j].mapping, dbs0[j])
           && (if j < k then ShortsOf(ms0[j], dbs0[j], formulas, fs, sfs[j]) else shorts[j].mapping == ms0[j])
    }

    /** One iteration of the outer loop of `logFormulasWithShorts`. */
    method ShortsAt(k: nat, fs: seq<Formula>, ghost ms0: seq<map<Hash, HashAndProtected>>, ghost dbs0: seq<KV>,
                    ghost sfs: seq<seq<Formula>>) returns (ok: bool, sf: seq<Formula>)
      requires Valid() && k < |shorts| && ShortsUpTo(k, fs, ms0, dbs0, sfs)
      modifies shorts[k], this`formulas
      ensures Valid() && Extends(old(formulas), formulas)
      ensures ok ==> ShortsUpTo(k + 1, fs, ms0, dbs0, sfs + [sf])
      ensures AllLoaded(ms0, dbs0)
    {
      ghost var c0 := formulas;
      ok, sf := ShortFormulasOf(shorts[k], fs);
      if !ok {
        return;
      }
      forall j | 0 <= j < k
        ensures ShortsOf(ms0[j], dbs0[j], formulas, fs, sfs[j])
      {
        ShortsOfExtends(ms0[j], dbs0[j], c0, formulas, fs, sfs[j]);
      }
    }

    /**
     * `logFormulasWithShorts`: the formulas under "full" when full logging
     * is on, and under each definition's name their short formulas when
     * short logging is on; an event is written only when something is in it.
     */
    method LogFormulasWithShorts(eventType: string, addr: Address, addrVersion: U64, codeAddr: Address,
                                 fs: seq<Formula>, fullEnabled: bool, shortEnabled: bool)
      returns (ok: bool, outputs: map<string, seq<Formula>>, ghost shortFormulas: seq<seq<Formula>>)
      requires Valid()
      modifies this`formulas, shorts, logger`written
      ensures Valid() && Extends(old(formulas), formulas)
      ensures forall k :: 0 <= k < |shorts| ==>
        shorts[k].mappingDB == old(shorts[k].mappingDB) && GrownByLoads(old(shorts[k].mapping), shorts[k].mapping, shorts[k].mappingDB)
      ensures ok ==> |shortFormulas| == |shorts| && outputs == Outputs(fullEnabled, shortEnabled, fs, Names(), shortFormulas)
      ensures ok && shortEnabled ==> forall k :: 0 <= k < |shorts| ==>
        ShortsOf(old(shorts[k].mapping), shorts[k].mappingDB, formulas, fs, shortFormulas[k])
      ensures ok ==> logger.written == old(logger.written) + Written(LogEvent(eventType, addr, addrVersion, codeAddr, outputs, logger.context))
      ensures !shortEnabled ==> ok && formulas == old(formulas)
      ensures !shortEnabled ==> forall k :: 0 <= k < |shorts| ==> shorts[k].mapping == old(shorts[k].mapping)
    {
      outputs := if fullEnabled then map["full" := fs] else map[];
      shortFormulas := seq(|shorts|, k => []);
      if shortEnabled {
        var sfs;
        ok, sfs := AllShortFormulas(fs);
        if !ok {
          return;
        }
        shortFormulas := sfs;
        outputs := ShortOutputs(fullEnabled, fs, sfs);
      }
      if |outputs| > 0 {
        logger.WriteEvent(eventType, addr, addrVersion, codeAddr, outputs);
      }
      ok := true;
    }

    /** The map `logFormulasWithShorts` builds with short logging on, one entry per shorterner in turn. */
    method ShortOutputs(fullEnabled: bool, fs: seq<Formula>, sfs: seq<seq<Formula>>) returns (outputs: map<string, seq<Formula>>)
      requires |sfs| == |shorts|
      ensures outputs == Outputs(fullEnabled, true, fs, Names(), sfs)
    {
      outputs := if fullEnabled then map["full" := fs] else map[];
      for k := 0 to |shorts|
        invariant outputs == Outputs(fullEnabled, true, fs, Names()[..k], sfs[..k])
      {
        assert Names()[..k + 1][..k] == Names()[..k];
        assert sfs[..k + 1][..k] == sfs[..k];
        outputs := outputs[shorts[k].protected.name := sfs[k]];
      }
      assert Names()[..|shorts|] == Names();
      assert sfs[..|shorts|] == sfs;
    }

    /** The event `LogOpcode` writes for `f`, given the short formulas found for it. */
    ghost function OpcodeEvent(f: Formula, sfs: seq<seq<Formula>>): LogEvent
      requires |sfs| == |shorts|
      reads this, logger
    {
      var c := logger.context;
      LogEvent("opcode", c.address, c.addressVersion, c.codeAddress,
               Outputs(f.opcode in logger.toLog.opcodesFull, f.opcode in logger.toLog.opcodesShort, [f], Names(), sfs), c)
    }

    /** `LogOpcode`: a new formula, at the current contract, under the opcode's own switches. */
    method LogOpcode(f: Formula) returns (ok: bool)
      requires Valid()
      modifies this`formulas, shorts, logger`written
      ensures Valid() && Extends(old(formulas), formulas)
      ensures forall k :: 0 <= k < |shorts| ==>
        shorts[k].mappingDB == old(shorts[k].mappingDB) && GrownByLoads(old(shorts[k].mapping), shorts[k].mapping, shorts[k].mappingDB)
      ensures ok ==> exists sfs :: |sfs| == |shorts| && logger.written == old(logger.written) + Written(OpcodeEvent(f, sfs))
      ensures f.opcode !in logger.toLog.opcodesFull && f.opcode !in logger.toLog.opcodesShort ==>
        ok && logger.written == old(logger.written) && formulas == old(formulas)
    {
      var c := logger.context;
      var outputs;
      ghost var sfs;
      ok, outputs, sfs := LogFormulasWithShorts("opcode", c.address, c.addressVersion, c.codeAddress, [f],
                                                f.opcode in logger.toLog.opcodesFull, f.opcode in logger.toLog.opcodesShort);
      if !(f.opcode in logger.toLog.opcodesShort) && !(f.opcode in logger.toLog.opcodesFull) {
        OutputsKeys(false, false, [f], Names(), sfs);
      }
    }

    /** `LogLog`: the data formula then the topics, under the log switches. */
    method LogLog(log: Log) returns (ok: bool, outputs: map<string, seq<Formula>>, ghost sfs: seq<seq<Formula>>)
      requires Valid()
      modifies this`formulas, shorts, logger`written
      ensures Valid() && Extends(old(formulas), formulas)
      ensures ok ==> |sfs| == |shorts| && outputs == Outputs(logger.toLog.logsFull, logger.toLog.logsShort, [log.data] + log.topics, Names(), sfs)
      ensures ok ==> logger.written == old(logger.written) + Written(LogEvent("log", log.addr, log.addrVersion, log.codeAddr, outputs, logger.context))
    {
      ok, outputs, sfs := LogFormulasWithShorts("log", log.addr, log.addrVersion, log.codeAddr, [log.data] + log.topics,
                                                logger.toLog.logsFull, logger.toLog.logsShort);
    }

    /**
     * `LogReturnData`, `LogFinalCode` and `LogFinalSlot`: the dependency
     * formula of `val` is built over the with-shorts cache (which may itself
     * log the opcodes it makes, up to `before`), then logged alone under the
     * event's switches.
     */
    method LogValue(e: ValueEvent, addr: Address, addrVersion: U64, codeAddr: Address, val: seq<DEPByte>)
      returns (ok: bool, f: Formula, outputs: map<string, seq<Formula>>, ghost before: seq<LogEvent>, ghost sfs: seq<seq<Formula>>)
      requires Valid()
      modifies this`formulasWithShorts, this`formulas, shorts, logger`written
      ensures Valid() && Extends(old(formulas), formulas) && Extends(old(formulasWithShorts), formulasWithShorts)
      ensures forall k :: 0 <= k < |shorts| ==> shorts[k].mappingDB == old(shorts[k].mappingDB)
      ensures ok && |val| == 0 ==> f == Formulas.FormulaNew(p, OP_CONCAT, [], [])
      ensures ok ==> |sfs| == |shorts| && outputs == Outputs(Switches(logger.toLog, e).0, Switches(logger.toLog, e).1, [f], Names(), sfs)
      ensures ok ==> logger.written == before + Written(LogEvent(EventName(e), addr, addrVersion, codeAddr, outputs, logger.context))
      ensures ok && !Switches(logger.toLog, e).0 && !Switches(logger.toLog, e).1 ==> logger.written == before
    {
      var r := FormulaDepWithShorts(val);
      before := logger.written;
      if r.Fail? {
        ok, f, outputs, sfs := false, Formulas.FormulaNew(p, OP_CONCAT, [], []), map[], [];
        return;
      }
      f := r.value;
      var sw := Switches(logger.toLog, e);
      ok, outputs, sfs := LogFormulasWithShorts(EventName(e), addr, addrVersion, codeAddr, [f], sw.0, sw.1);
      if ok && !sw.0 && !sw.1 {
        OutputsKeys(false, false, [f], Names(), sfs);
      }
    }

    // ---- the formula cache with shorts ----

    /**
     * `GetFormulaWithShorts`: a formula of the with-shorts cache, else the
     * one `GetFormula` gives, cached as committed after every shorterner has
     * looked up its entry and fetched the short formula it names.
     */
    method GetFormulaWithShorts(h: Hash) returns (r: Result<Formula>)
      requires Valid()
      modifies this`formulasWithShorts, this`formulas, shorts
      ensures Valid() && Extends(old(formulas), formulas) && Extends(old(formulasWithShorts), formulasWithShorts)
      ensures forall k :: 0 <= k < |shorts| ==>
        shorts[k].mappingDB == old(shorts[k].mappingDB) && GrownByLoads(old(shorts[k].mapping), shorts[k].mapping, shorts[k].mappingDB)
      ensures h in old(formulasWithShorts) ==>
        r == Ok(old(formulasWithShorts)[h].formula) && formulasWithShorts == old(formulasWithShorts) && formulas == old(formulas)
      ensures h !in old(formulasWithShorts) && r.Ok? ==>
        r == KnownFormula(p, old(formulas), formulasDB, h) && formulasWithShorts == old(formulasWithShorts)[h := Entry(r.value, true)]
      ensures h !in old(formulasWithShorts) && r.Ok? ==>
        forall k :: 0 <= k < |shorts| ==> ShortCached(old(shorts[k].mapping), shorts[k].mappingDB, formulas, h)
      ensures h !in old(formulasWithShorts) && KnownFormula(p, old(formulas), formulasDB, h).Fail? ==> r.Fail?
      ensures r.Ok? ==> h in formulasWithShorts && formulasWithShorts[h].formula == r.value
    {
      if h in formulasWithShorts {
        return Ok(formulasWithShorts[h].formula);
      }
      r := GetFormula(h);
      if r.Fail? {
        return;
      }
      formulasWithShorts := formulasWithShorts[h := Entry(r.value, true)];
      var ok := FetchShorts(h);
      if !ok {
        return Fail("key not found");
      }
    }

    /** The loop of `GetFormulaWithShorts`: every shorterner loads the entry of `h` and the formula it names. */
    method FetchShorts(h: Hash) returns (ok: bool)
      requires Valid()
      modifies shorts, this`formulas
      ensures Valid() && Extends(old(formulas), formulas)
      ensures forall k :: 0 <= k < |shorts| ==>
        shorts[k].mappingDB == old(shorts[k].mappingDB) && GrownByLoads(old(shorts[k].mapping), shorts[k].mapping, shorts[k].mappingDB)
      ensures ok ==> forall k :: 0 <= k < |shorts| ==> ShortCached(old(shorts[k].mapping), shorts[k].mappingDB, formulas, h)
    {
      ghost var ms0 := Mappings();
      ghost var dbs0 := MappingDBs();
      for k := 0 to |shorts|
        invariant Valid() && Extends(old(formulas), formulas)
        invariant FetchedUpTo(k, h, ms0, dbs0)
      {
        ok := FetchAt(k, h, ms0, dbs0);
        if !ok {
          return;
        }
      }
      ok := true;
    }

    /** Every shorterner has only loaded entries since `ms0`. */
    ghost predicate AllLoaded(ms0: seq<map<Hash, HashAndProtected>>, dbs0: seq<KV>)
      reads shorts
    {
      && |ms0| == |dbs0| == |shorts|
      && forall j :: 0 <= j < |shorts| ==> shorts[j].mappingDB == dbs0[j] && GrownByLoads(ms0[j], shorts[j].mapping, dbs0[j])
    }

    /** The shorterners before `k` have the short formula of `h` cached, those from `k` on are untouched. */
    ghost predicate FetchedUpTo(k: nat, h: Hash, ms0: seq<map<Hash, HashAndProtected>>, dbs0: seq<KV>)
      reads this, shorts
    {
      && |ms0| == |dbs0| == |shorts| && k <= |shorts|
      && forall j :: 0 <= j < |shorts| ==>
           && shorts[j].mappingDB == dbs0[j]
           && GrownByLoads(ms0[j], shorts[j].mapping, dbs0[j])
           && (if j < k then ShortCached(ms0[j], dbs0[j], formulas, h) else shorts[j].mapping == ms0[j])
    }

    /** One iteration of the loop of `GetFormulaWithShorts`. */
    method FetchAt(k: nat, h: Hash, ghost ms0: seq<map<Hash, HashAndProtected>>, ghost dbs0: seq<KV>) returns (ok: bool)
      requires Valid() && k < |shorts| && FetchedUpTo(k, h, ms0, dbs0)
      modifies shorts[k], this`formulas
      ensures Valid() && Extends(old(formulas), formulas)
      ensures ok ==> FetchedUpTo(k + 1, h, ms0, dbs0)
      ensures AllLoaded(ms0, dbs0)
    {
      var sf;
      ok, sf := FetchShort(shorts[k], h);
    }

    /** One shorterner loads the entry of `h`, then the short formula it names. */
    method FetchShort(short: Shorterner, h: Hash) returns (ok: bool, sf: Formula)
      requires Valid() && short in shorts
      modifies short, this`formulas
      ensures Valid() && Extends(old(formulas), formulas)
      ensures short.mappingDB == old(short.mappingDB) && GrownByLoads(old(short.mapping), short.mapping, short.mappingDB)
      ensures ok ==> ShortOf(old(short.mapping), short.mappingDB, formulas, h, sf)
    {
      var child := short.LoadChildHash(h);
      if child.Fail? {
        return false, InitZeroFormula(p);
      }
      var g := GetFormula(child.value.hash);
      if g.Fail? {
        return false, InitZeroFormula(p);
      }
      ok, sf := true, g.value;
    }

    /** The loop of `ConstantNewWithShorts`/`FormulaNewWithShorts`: `f` is shortened under every definition. */
    method ShortenAll(f: Formula) returns (ok: bool)
      requires Valid()
      modifies shorts, this`formulas
      ensures Valid() && Extends(old(formulas), formulas)
      ensures forall k :: 0 <= k < |shorts| ==>
        shorts[k].mappingDB == old(shorts[k].mappingDB) && GrownByLoads(old(shorts[k].mapping) - {f.hash}, shorts[k].mapping - {f.hash}, shorts[k].mappingDB)
      ensures ok ==> forall k :: 0 <= k < |shorts| ==>
        Shortened(p, shorts[k].protected, old(shorts[k].mapping), shorts[k].mapping, shorts[k].mappingDB, formulas, f)
    {
      ghost var ms0 := Mappings();
      ghost var dbs0 := MappingDBs();
      for k := 0 to |shorts|
        invariant Valid() && Extends(old(formulas), formulas)
        invariant ShortenedUpTo(k, f, ms0, dbs0)
      {
        ok := ShortenAt(k, f, ms0, dbs0);
        if !ok {
          return;
        }
      }
      ok := true;
    }

    /**
     * The shorterners before `k` have shortened `f` (into the current cache)
     * and those from `k` on are untouched; every one has only loaded entries
     * besides that of `f`.
     */
    ghost predicate ShortenedUpTo(k: nat, f: Formula, ms0: seq<map<Hash, HashAndProtected>>, dbs0: seq<KV>)
      reads this, shorts
    {
      && |ms0| == |dbs0| == |shorts| && k <= |shorts|
      && forall j :: 0 <= j < |shorts| ==>
           && shorts[j].mappingDB == dbs0[j]
           && GrownByLoads(ms0[j] - {f.hash}, shorts[j].mapping - {f.hash}, dbs0[j])
           && (if j < k then Shortened(p, shorts[j].protected, ms0[j], shorts[j].mapping, dbs0[j], formulas, f)
               else shorts[j].mapping == ms0[j])
    }

    /** One iteration of the loop of `shortenAll`; on failure only the loads are stated. */
    method ShortenAt(k: nat, f: Formula, ghost ms0: seq<map<Hash, HashAndProtected>>, ghost dbs0: seq<KV>) returns (ok: bool)
      requires Valid() && k < |shorts| && ShortenedUpTo(k, f, ms0, dbs0)
      modifies shorts[k], this`formulas
      ensures Valid() && Extends(old(formulas), formulas)
      ensures ok ==> ShortenedUpTo(k + 1, f, ms0, dbs0)
      ensures forall j :: 0 <= j < |shorts| ==>
        shorts[j].mappingDB == dbs0[j] && GrownByLoads(ms0[j] - {f.hash}, shorts[j].mapping - {f.hash}, dbs0[j])
    {
      ghost var c0 := formulas;
      ghost var children, childFormulas;
      ok, children, childFormulas := Shortern(shorts[k], f);
      if !ok {
        return;
      }
      assert ShortenedBy(p, shorts[k].protected, ms0[k], shorts[k].mapping, dbs0[k], formulas, f, children, childFormulas);
      forall j | 0 <= j < k
        ensures Shortened(p, shorts[j].protected, ms0[j], shorts[j].mapping, dbs0[j], formulas, f)
      {
        ShortenedKeep(p, shorts[j].protected, ms0[j], shorts[j].mapping, shorts[j].mapping, dbs0[j], c0, formulas, f);
      }
    }

    /**
     * The part `ConstantNewWithShorts` and `FormulaNewWithShorts` share once
     * `f` is made: a formula new to the with-shorts cache is cached
     * uncommitted, shortened under every definition and logged as an opcode;
     * a known one is left alone.
     */
    method AddWithShorts(f: Formula) returns (ok: bool)
      requires Valid()
      modifies this`formulasWithShorts, this`formulas, shorts, logger`written
      ensures Valid() && Extends(old(formulas), formulas)
      ensures formulasWithShorts == Inserted(old(formulasWithShorts), f)
      ensures forall k :: 0 <= k < |shorts| ==>
        shorts[k].mappingDB == old(shorts[k].mappingDB) && GrownByLoads(old(shorts[k].mapping) - {f.hash}, shorts[k].mapping - {f.hash}, shorts[k].mappingDB)
      ensures f.hash in old(formulasWithShorts) ==> ok && formulas == old(formulas) && logger.written == old(logger.written)
      ensures f.hash in old(formulasWithShorts) ==> forall k :: 0 <= k < |shorts| ==> shorts[k].mapping == old(shorts[k].mapping)
      ensures f.hash !in old(formulasWithShorts) && ok ==> forall k :: 0 <= k < |shorts| ==>
        Shortened(p, shorts[k].protected, old(shorts[k].mapping), shorts[k].mapping, shorts[k].mappingDB, formulas, f)
      ensures f.hash !in old(formulasWithShorts) && ok ==>
        exists sfs :: |sfs| == |shorts| && logger.written == old(logger.written) + Written(OpcodeEvent(f, sfs))
    {
      if f.hash in formulasWithShorts {
        return true;
      }
      formulasWithShorts := formulasWithShorts[f.hash := Entry(f, false)];
      ok := ShortenAll(f);
      if !ok {
        return;
      }
      label AfterShorten:
      ok := LogOpcode(f);
      forall k | 0 <= k < |shorts|
        ensures GrownByLoads(old(shorts[k].mapping) - {f.hash}, shorts[k].mapping - {f.hash}, shorts[k].mappingDB)
      {
        GrownExceptTrans(old(shorts[k].mapping), old@AfterShorten(shorts[k].mapping), shorts[k].mapping, shorts[k].mappingDB, f.hash);
      }
      if ok {
        forall k | 0 <= k < |shorts|
          ensures Shortened(p, shorts[k].protected, old(shorts[k].mapping), shorts[k].mapping, shorts[k].mappingDB, formulas, f)
        {
          ShortenedKeep(p, shorts[k].protected, old(shorts[k].mapping), old@AfterShorten(shorts[k].mapping), shorts[k].mapping,
                        shorts[k].mappingDB, old@AfterShorten(formulas), formulas, f);
        }
      }
    }

    /** `ConstantNewWithShorts`: `ConstantNew`, then the constant is added with its shorts. */
    method ConstantNewWithShorts(opcode: Byte, result: seq<Byte>) returns (r: Result<Formula>)
      requires Valid()
      modifies this`formulasWithShorts, this`formulas, shorts, logger`written
      ensures Valid() && Extends(old(formulas), formulas)
      ensures r.Ok? ==> r.value == Formulas.ConstantNew(p, opcode, result)
      ensures Formulas.ConstantNew(p, opcode, result).hash in formulas
      ensures formulasWithShorts == Inserted(old(formulasWithShorts), Formulas.ConstantNew(p, opcode, result))
      ensures forall k :: 0 <= k < |shorts| ==> shorts[k].mappingDB == old(shorts[k].mappingDB)
      ensures Formulas.ConstantNew(p, opcode, result).hash in old(formulasWithShorts) ==>
        r.Ok? && formulas == Inserted(old(formulas), r.value) && logger.written == old(logger.written)
      ensures Formulas.ConstantNew(p, opcode, result).hash !in old(formulasWithShorts) && r.Ok? ==> forall k :: 0 <= k < |shorts| ==>
        Shortened(p, shorts[k].protected, old(shorts[k].mapping), shorts[k].mapping, shorts[k].mappingDB, formulas, r.value)
      ensures Formulas.ConstantNew(p, opcode, result).hash !in old(formulasWithShorts) && r.Ok? ==>
        exists sfs :: |sfs| == |shorts| && logger.written == old(logger.written) + Written(OpcodeEvent(r.value, sfs))
    {
      var res := ConstantNew(opcode, result);
      var ok := AddWithShorts(res);
      r := if ok then Ok(res) else Fail("key not found");
    }

    /** `FormulaNewWithShorts`: `FormulaNew`, then the formula is added with its shorts. */
    method FormulaNewWithShorts(opcode: Byte, result: seq<Byte>, operands: seq<Hash>) returns (r: Result<Formula>)
      requires Valid()
      modifies this`formulasWithShorts, this`formulas, shorts, logger`written
      ensures Valid() && Extends(old(formulas), formulas)
      ensures r.Ok? ==> r.value == Formulas.FormulaNew(p, opcode, result, operands)
      ensures Formulas.FormulaNew(p, opcode, result, operands).hash in formulas
      ensures formulasWithShorts == Inserted(old(formulasWithShorts), Formulas.FormulaNew(p, opcode, result, operands))
      ensures forall k :: 0 <= k < |shorts| ==> shorts[k].mappingDB == old(shorts[k].mappingDB)
      ensures Formulas.FormulaNew(p, opcode, result, operands).hash in old(formulasWithShorts) ==>
        r.Ok? && formulas == Inserted(old(formulas), r.value) && logger.written == old(logger.written)
      ensures Formulas.FormulaNew(p, opcode, result, operands).hash !in old(formulasWithShorts) && r.Ok? ==> forall k :: 0 <= k < |shorts| ==>
        Shortened(p, shorts[k].protected, old(shorts[k].mapping), shorts[k].mapping, shorts[k].mappingDB, formulas, r.value)
      ensures Formulas.FormulaNew(p, opcode, result, operands).hash !in old(formulasWithShorts) && r.Ok? ==>
        exists sfs :: |sfs| == |shorts| && logger.written == old(logger.written) + Written(OpcodeEvent(r.value, sfs))
    {
      var res := FormulaNew(opcode, result, operands);
      var ok := AddWithShorts(res);
      r := if ok then Ok(res) else Fail("key not found");
    }
    /** `FormulaDepWithShorts`: `FormulaDep` over the with-shorts cache, every formula it makes added with its shorts. */
    method FormulaDepWithShorts(val: seq<DEPByte>) returns (r: Result<Formula>)
      requires Valid()
      modifies this`formulasWithShorts, this`formulas, shorts, logger`written
      ensures Valid() && Extends(old(formulas), formulas) && Extends(old(formulasWithShorts), formulasWithShorts)
      ensures forall k :: 0 <= k < |shorts| ==> shorts[k].mappingDB == old(shorts[k].mappingDB)
      ensures |val| == 0 && r.Ok? ==> r == Ok(Formulas.FormulaNew(p, OP_CONCAT, [], []))
      ensures |val| > 0 && r.Ok? ==>
        Parts(p, formulasWithShorts, Runs(val)).Ok?
        && r == DepFormula(p, formulasWithShorts, Parts(p, formulasWithShorts, Runs(val)).value)
      ensures r.Ok? ==> r == DepOf(p, formulasWithShorts, val)
    {
      if |val| == 0 {
        r := FormulaNewWithShorts(OP_CONCAT, [], []);
        return;
      }
      var runs := SplitRuns(val);
      var parts, res, valBin := DepPartsWithShorts(runs);
      if parts.Fail? {
        return Fail(parts.msg);
      }
      if |res| == 1 {
        r := GetFormulaWithShorts(res[0]);
      } else {
        ghost var cl := formulasWithShorts;
        r := FormulaNewWithShorts(OP_CONCAT, valBin, res);
        PartsExtends(p, cl, formulasWithShorts, runs);
      }
    }

    /** The second loop of `FormulaDepWithShorts`. */
    method DepPartsWithShorts(runs: seq<seq<DEPByte>>) returns (r: Result<seq<Part>>, res: seq<Hash>, valBin: seq<Byte>)
      requires Valid() && forall k :: 0 <= k < |runs| ==> |runs[k]| > 0
      modifies this`formulasWithShorts, this`formulas, shorts, logger`written
      ensures Valid() && Extends(old(formulas), formulas) && Extends(old(formulasWithShorts), formulasWithShorts)
      ensures forall k :: 0 <= k < |shorts| ==> shorts[k].mappingDB == old(shorts[k].mappingDB)
      ensures r.Ok? ==> Parts(p, formulasWithShorts, runs) == r && res == PartHashes(r.value) && valBin == PartBytes(r.value)
      ensures r.Ok? ==> forall j :: 0 <= j < |r.value| ==> r.value[j].hash in formulasWithShorts
    {
      res := [];
      valBin := [];
      var parts: seq<Part> := [];
      for k := 0 to |runs|
        invariant Valid() && Extends(old(formulas), formulas) && Extends(old(formulasWithShorts), formulasWithShorts)
        invariant forall j :: 0 <= j < |shorts| ==> shorts[j].mappingDB == old(shorts[j].mappingDB)
        invariant Parts(p, formulasWithShorts, runs[..k]) == Ok(parts)
        invariant res == PartHashes(parts) && valBin == PartBytes(parts)
        invariant forall j :: 0 <= j < |parts| ==> parts[j].hash in formulasWithShorts
      {
        ghost var ca := formulasWithShorts;
        var part := RunPartWithShorts(runs[k]);
        if part.Fail? {
          return Fail(part.msg), res, valBin;
        }
        PartsAppend(p, ca, formulasWithShorts, runs, k, parts, part.value);
        res := res + [part.value.hash];
        valBin := valBin + part.value.bytes;
        parts := parts + [part.value];
      }
      assert runs[..|runs|] == runs;
      r := Ok(parts);
    }

    /** One iteration of the second loop of `FormulaDepWithShorts`. */
    method RunPartWithShorts(run: seq<DEPByte>) returns (r: Result<Part>)
      requires Valid() && |run| > 0
      modifies this`formulasWithShorts, this`formulas, shorts, logger`written
      ensures Valid() && Extends(old(formulas), formulas) && Extends(old(formulasWithShorts), formulasWithShorts)
      ensures forall k :: 0 <= k < |shorts| ==> shorts[k].mappingDB == old(shorts[k].mappingDB)
      ensures r.Ok? ==> run[0].formula in formulasWithShorts && r == RunPart(p, formulasWithShorts[run[0].formula].formula, run)
      ensures r.Ok? ==> r.value.hash in formulasWithShorts
    {
      var rangeFirst := run[0].pos;
      var rangeSize := RunSize(run);
      var formulaHash := run[0].formula;
      var g := GetFormulaWithShorts(formulaHash);
      if g.Fail? {
        return Fail(g.msg);
      }
      var formula := g.value;
      if rangeFirst == 0 && rangeSize == |formula.result| {
        return Ok(Part(formulaHash, formula.result));
      }
      var slice := SliceWithShorts(formulaHash, formula.result, rangeFirst, rangeSize);
      if slice.Fail? {
        return Fail(slice.msg);
      }
      r := Ok(Part(slice.value.hash, slice.value.result));
    }
    /** The slice branch of the second loop of `FormulaDepWithShorts`: `result[first:first+size]` of formula `h`. */
    method SliceWithShorts(h: Hash, result: seq<Byte>, first: U64, size: U64) returns (r: Result<Formula>)
      requires Valid()
      modifies this`formulasWithShorts, this`formulas, shorts, logger`written
      ensures Valid() && Extends(old(formulas), formulas) && Extends(old(formulasWithShorts), formulasWithShorts)
      ensures forall k :: 0 <= k < |shorts| ==> shorts[k].mappingDB == old(shorts[k].mappingDB)
      ensures r.Ok? ==> first <= Add64(first, size) <= |result|
      ensures r.Ok? ==> r.value == SliceFormula(p, h, first, size, result[first..Add64(first, size)]) && r.value.hash in formulasWithShorts
    {
      var offsetOp := ConstantNewWithShorts(OP_CONSTANT, BE64(first));
      if offsetOp.Fail? {
        return Fail(offsetOp.msg);
      }
      var sizeOp := ConstantNewWithShorts(OP_CONSTANT, BE64(size));
      if sizeOp.Fail? {
        return Fail(sizeOp.msg);
      }
      var end := Add64(first, size);
      if end < first || end > |result| {
        return Fail("slice bounds out of range");
      }
      r := FormulaNewWithShorts(OP_SLICE, result[first..end], [h, offsetOp.value.hash, sizeOp.value.hash]);
    }
    // ---- committing with shorts ----

    /** The definitions of the shorterners, in order. */
    ghost function Mappings(): (r: seq<map<Hash, HashAndProtected>>)
      reads shorts
      ensures |r| == |shorts| && forall k :: 0 <= k < |shorts| ==> r[k] == shorts[k].mapping
    {
      seq(|shorts|, k requires 0 <= k < |shorts| reads shorts => shorts[k].mapping)
    }

    /** The entry stores of the shorterners, in order. */
    ghost function MappingDBs(): (r: seq<KV>)
      reads shorts
      ensures |r| == |shorts| && forall k :: 0 <= k < |shorts| ==> r[k] == shorts[k].mappingDB
    {
      seq(|shorts|, k requires 0 <= k < |shorts| reads shorts => shorts[k].mappingDB)
    }

    /**
     * `commitFormulaWithShortsInternal`, over the with-shorts cache: a missing
     * hash fails unless ignored, a committed one is left alone; an uncommitted
     * one is saved and marked, the short formula of every definition is
     * committed and its entry saved, and the operands follow (missing ones
     * are skipped).  `false` where the source panics.
     */
    method CommitFormulaWithShortsInternal(hash: Hash, ignoreExistance: bool) returns (ok: bool)
      requires Valid()
      modifies this`formulasWithShorts, this`formulas, this`formulasDB, shorts
      ensures Valid()
      ensures ok ==> CommitProgress(old(formulasWithShorts), formulasWithShorts, old(formulas), formulas, old(formulasDB), formulasDB)
      ensures ok ==> Mappings() == old(Mappings()) && AllMappingsSaved(Mappings(), old(MappingDBs()), MappingDBs(), Uncommitted(old(formulasWithShorts)) - Uncommitted(formulasWithShorts))
      ensures hash !in old(formulasWithShorts) || old(formulasWithShorts)[hash].committed ==>
        (ok <==> ignoreExistance || hash in old(formulasWithShorts))
        && formulasWithShorts == old(formulasWithShorts) && formulas == old(formulas) && formulasDB == old(formulasDB)
        && MappingDBs() == old(MappingDBs())
      ensures ok && hash in formulasWithShorts ==> formulasWithShorts[hash].committed
      decreases |Uncommitted(formulasWithShorts)|, 2
    {
      if hash !in formulasWithShorts {
        return ignoreExistance;
      }
      if formulasWithShorts[hash].committed {
        return true;
      }
      ok := CommitNewWithShorts(hash);
    }

    method CommitFormulaWithShorts(hash: Hash) returns (ok: bool)
      requires Valid()
      modifies this`formulasWithShorts, this`formulas, this`formulasDB, shorts
      ensures Valid()
      ensures ok ==> CommitProgress(old(formulasWithShorts), formulasWithShorts, old(formulas), formulas, old(formulasDB), formulasDB)
      ensures ok ==> Mappings() == old(Mappings()) && AllMappingsSaved(Mappings(), old(MappingDBs()), MappingDBs(), Uncommitted(old(formulasWithShorts)) - Uncommitted(formulasWithShorts))
      ensures hash !in old(formulasWithShorts) ==> !ok
      ensures ok ==> formulasWithShorts[hash].committed
    {
      ok := CommitFormulaWithShortsInternal(hash, false);
    }

    /**
     * `CommitDEPBytesWithShorts`: `CommitFormulaWithShorts` on the formula of
     * each byte where it changes (`ChangedFormulas`); a formula missing from
     * the with-shorts cache fails.
     */
    method CommitDEPBytesWithShorts(data: seq<DEPByte>) returns (ok: bool)
      requires Valid()
      modifies this`formulasWithShorts, this`formulas, this`formulasDB, shorts
      ensures Valid()
      ensures ok ==> CommitProgress(old(formulasWithShorts), formulasWithShorts, old(formulas), formulas, old(formulasDB), formulasDB)
      ensures ok ==> Mappings() == old(Mappings())
      ensures ok ==> AllMappingsSaved(Mappings(), old(MappingDBs()), MappingDBs(), Uncommitted(old(formulasWithShorts)) - Uncommitted(formulasWithShorts))
      ensures ok ==> AllCommitted(formulasWithShorts, ChangedFormulas(data))
      ensures !AllCached(old(formulasWithShorts), ChangedFormulas(data)) ==> !ok
    {
      var prevFormula := ZERO_HASH;
      ghost var c0 := formulasWithShorts;
      ghost var ms0 := Mappings();
      ghost var dbs0 := MappingDBs();
      for i := 0 to |data|
        invariant Valid()
        invariant CommitProgress(c0, formulasWithShorts, old(formulas), formulas, old(formulasDB), formulasDB)
        invariant Mappings() == ms0 && AllMappingsSaved(ms0, dbs0, MappingDBs(), Uncommitted(c0) - Uncommitted(formulasWithShorts))
        invariant prevFormula == if i == 0 then ZERO_HASH else data[i - 1].formula
        invariant AllCommitted(formulasWithShorts, ChangedFormulas(data[..i]))
      {
        ChangedFormulasStep(data, i);
        var curFormula := data[i].formula;
        if curFormula != prevFormula {
          ok := CommitChangeWithShorts(curFormula, ChangedFormulas(data[..i]), c0, old(formulas), old(formulasDB), ms0, dbs0);
          if !ok {
            return;
          }
          prevFormula := curFormula;
        }
      }
      assert data[..|data|] == data;
      ok := true;
    }

    /** One commit of `CommitDEPBytesWithShorts`, extending what was committed since `c0`. */
    method CommitChangeWithShorts(h: Hash, ghost done: seq<Hash>, ghost c0: Cache, ghost f0: Cache, ghost db0: KV,
                                  ghost ms0: seq<map<Hash, HashAndProtected>>, ghost dbs0: seq<KV>) returns (ok: bool)
      requires Valid() && AllCommitted(formulasWithShorts, done)
      requires CommitProgress(c0, formulasWithShorts, f0, formulas, db0, formulasDB)
      requires Mappings() == ms0 && AllMappingsSaved(ms0, dbs0, MappingDBs(), Uncommitted(c0) - Uncommitted(formulasWithShorts))
      modifies this`formulasWithShorts, this`formulas, this`formulasDB, shorts
      ensures Valid() && (h !in c0 ==> !ok)
      ensures ok ==> CommitProgress(c0, formulasWithShorts, f0, formulas, db0, formulasDB)
      ensures ok ==> Mappings() == ms0 && AllMappingsSaved(ms0, dbs0, MappingDBs(), Uncommitted(c0) - Uncommitted(formulasWithShorts))
      ensures ok ==> AllCommitted(formulasWithShorts, done + [h])
    {
      ghost var c1 := formulasWithShorts;
      ghost var f1 := formulas;
      ghost var db1 := formulasDB;
      ghost var dbs1 := MappingDBs();
      ok := CommitFormulaWithShorts(h);
      if ok {
        CommitProgressTrans(c0, c1, formulasWithShorts, f0, f1, formulas, db0, db1, formulasDB);
        AllMappingsSavedTrans(ms0, dbs0, dbs1, MappingDBs(), Uncommitted(c0) - Uncommitted(c1), Uncommitted(c1) - Uncommitted(formulasWithShorts));
        AllCommittedKeep(c1, formulasWithShorts, done, [h]);
      }
    }

    /** The uncommitted case of `commitFormulaWithShortsInternal`. */
    method CommitNewWithShorts(hash: Hash) returns (ok: bool)
      requires Valid() && hash in formulasWithShorts && !formulasWithShorts[hash].committed
      modifies this`formulasWithShorts, this`formulas, this`formulasDB, shorts
      ensures Valid()
      ensures ok ==> CommitProgress(old(formulasWithShorts), formulasWithShorts, old(formulas), formulas, old(formulasDB), formulasDB)
      ensures ok ==> Mappings() == old(Mappings()) && AllMappingsSaved(Mappings(), old(MappingDBs()), MappingDBs(), Uncommitted(old(formulasWithShorts)) - Uncommitted(formulasWithShorts))
      ensures ok ==> formulasWithShorts[hash].committed
      decreases |Uncommitted(formulasWithShorts)|, 1
    {
      var cf := formulasWithShorts[hash];
      ghost var c0 := formulasWithShorts;
      ghost var ms0 := Mappings();
      ghost var dbs0 := MappingDBs();
      formulasDB := formulasDB[cf.formula.hash := Formulas.Bin(cf.formula)];
      formulasWithShorts := formulasWithShorts[hash := cf.(committed := true)];
      ghost var c1 := formulasWithShorts;
      assert Mappings() == ms0 && MappingDBs() == dbs0;
      UncommittedAfterCommit(c0, hash);
      ok := CommitShorts(hash);
      if !ok {
        return;
      }
      ghost var f1 := formulas;
      ghost var db1 := formulasDB;
      ghost var dbs1 := MappingDBs();
      assert Mappings() == ms0;
      assert old(formulasDB).Keys + {hash} <= db1.Keys;
      SubsetSize(Uncommitted(c1), Uncommitted(c0) - {hash});
      ok := CommitOperandsWithShorts(cf.formula.operands, |Uncommitted(c0)|);
      if !ok {
        return;
      }
      assert Mappings() == ms0;
      CommitProgressNew(c0, formulasWithShorts, old(formulas), f1, formulas, old(formulasDB), db1, formulasDB, hash);
      AllMappingsSavedTrans(ms0, dbs0, dbs1, MappingDBs(), {hash}, Uncommitted(c1) - Uncommitted(formulasWithShorts));
    }

    /** The operand loop of `commitFormulaWithShortsInternal`, each operand committed with existence ignored. */
    method CommitOperandsWithShorts(ops: seq<Hash>, ghost bound: nat) returns (ok: bool)
      requires Valid() && |Uncommitted(formulasWithShorts)| < bound
      modifies this`formulasWithShorts, this`formulas, this`formulasDB, shorts
      ensures Valid()
      ensures ok ==> CommitProgress(old(formulasWithShorts), formulasWithShorts, old(formulas), formulas, old(formulasDB), formulasDB)
      ensures ok ==> Mappings() == old(Mappings()) && AllMappingsSaved(Mappings(), old(MappingDBs()), MappingDBs(), Uncommitted(old(formulasWithShorts)) - Uncommitted(formulasWithShorts))
      ensures ok ==> forall k :: 0 <= k < |ops| && ops[k] in formulasWithShorts ==> formulasWithShorts[ops[k]].committed
      decreases bound, 0
    {
      ghost var c1 := formulasWithShorts;
      for i := 0 to |ops|
        invariant Valid()
        invariant CommitProgress(c1, formulasWithShorts, old(formulas), formulas, old(formulasDB), formulasDB)
        invariant forall k :: 0 <= k < i && ops[k] in formulasWithShorts ==> formulasWithShorts[ops[k]].committed
        invariant Mappings() == old(Mappings())
        invariant AllMappingsSaved(Mappings(), old(MappingDBs()), MappingDBs(), Uncommitted(c1) - Uncommitted(formulasWithShorts))
      {
        SubsetSize(Uncommitted(formulasWithShorts), Uncommitted(c1));
        ghost var c2 := formulasWithShorts;
        ghost var f2 := formulas;
        ghost var db2 := formulasDB;
        ghost var dbs2 := MappingDBs();
        ok := CommitFormulaWithShortsInternal(ops[i], true);
        if !ok {
          return;
        }
        CommitProgressTrans(c1, c2, formulasWithShorts, old(formulas), f2, formulas, old(formulasDB), db2, formulasDB);
        AllMappingsSavedTrans(Mappings(), old(MappingDBs()), dbs2, MappingDBs(),
                              Uncommitted(c1) - Uncommitted(c2), Uncommitted(c2) - Uncommitted(formulasWithShorts));
        forall k | 0 <= k <= i && ops[k] in formulasWithShorts
          ensures formulasWithShorts[ops[k]].committed
        {
          if k < i {
            assert ops[k] in c2 && c2[ops[k]].committed;
          }
        }
      }
      ok := true;
    }

    /**
     * The shorterner loop of `commitFormulaWithShortsInternal`, corrected: the
     * short formula `hash` has under each definition must be cached, and is
     * saved and committed unless it already is; the entry of `hash` is
     * saved in every case, also when another parent committed that short
     * formula first.
     */
    method CommitShorts(hash: Hash) returns (ok: bool)
      requires Valid()
      modifies this`formulas, this`formulasDB, shorts
      ensures Valid() && CommittedSaved(old(formulas), old(formulasDB), formulas, formulasDB)
      ensures forall k :: 0 <= k < |shorts| ==> shorts[k].mapping == old(shorts[k].mapping)
      ensures ok <==> forall k :: 0 <= k < |shorts| ==> ChildOf(shorts[k].mapping, hash).hash in old(formulas)
      ensures ok ==> forall k :: 0 <= k < |shorts| ==>
        ShortCommitted(shorts[k].mapping, hash, formulas, old(shorts[k].mappingDB), shorts[k].mappingDB)
      ensures Mappings() == old(Mappings())
      ensures ok ==> AllMappingsSaved(Mappings(), old(MappingDBs()), MappingDBs(), {hash})
    {
      ghost var ms0 := Mappings();
      ghost var dbs0 := MappingDBs();
      for k := 0 to |shorts|
        invariant Valid() && CommittedSaved(old(formulas), old(formulasDB), formulas, formulasDB)
        invariant ShortsCommittedUpTo(k, hash, ms0, dbs0)
      {
        ghost var c1 := formulas;
        ghost var db1 := formulasDB;
        ok := CommitShortAt(k, hash, ms0, dbs0);
        if !ok {
          return;
        }
        CommittedSavedTrans(old(formulas), old(formulasDB), c1, db1, formulas, formulasDB);
      }
      ok := true;
    }

    /**
     * The shorterners before `k` have the short formula of `hash` committed
     * and its entry saved; those from `k` on have not written; no cached
     * mapping changes.
     */
    ghost predicate ShortsCommittedUpTo(k: nat, hash: Hash, ms0: seq<map<Hash, HashAndProtected>>, dbs0: seq<KV>)
      reads this, shorts
    {
      && |ms0| == |dbs0| == |shorts| && k <= |shorts|
      && forall j :: 0 <= j < |shorts| ==>
           && shorts[j].mapping == ms0[j]
           && (if j < k then ShortCommitted(ms0[j], hash, formulas, dbs0[j], shorts[j].mappingDB)
               else shorts[j].mappingDB == dbs0[j])
    }

    /** One iteration of the loop of `CommitShorts`. */
    method CommitShortAt(k: nat, hash: Hash, ghost ms0: seq<map<Hash, HashAndProtected>>, ghost dbs0: seq<KV>) returns (ok: bool)
      requires Valid() && k < |shorts| && ShortsCommittedUpTo(k, hash, ms0, dbs0)
      modifies this`formulas, this`formulasDB, shorts[k]
      ensures Valid() && CommittedSaved(old(formulas), old(formulasDB), formulas, formulasDB)
      ensures ok <==> ChildOf(ms0[k], hash).hash in old(formulas)
      ensures ok ==> ShortsCommittedUpTo(k + 1, hash, ms0, dbs0)
      ensures !ok ==> ShortsCommittedUpTo(k, hash, ms0, dbs0)
    {
      ok := CommitShort(k, hash);
    }

    /** One pass of the loop of `CommitShorts`, for the shorterner `k`. */
    method CommitShort(k: nat, hash: Hash) returns (ok: bool)
      requires Valid() && k < |shorts|
      modifies this`formulas, this`formulasDB, shorts[k]
      ensures Valid() && CommittedSaved(old(formulas), old(formulasDB), formulas, formulasDB)
      ensures shorts[k].mapping == old(shorts[k].mapping)
      ensures ok <==> ChildOf(shorts[k].mapping, hash).hash in old(formulas)
      ensures !ok ==> formulas == old(formulas) && formulasDB == old(formulasDB) && shorts[k].mappingDB == old(shorts[k].mappingDB)
      ensures ok ==> ShortCommitted(shorts[k].mapping, hash, formulas, old(shorts[k].mappingDB), shorts[k].mappingDB)
    {
      var short := shorts[k];
      var shortHash := if hash in short.mapping then short.mapping[hash].hash else ZERO_HASH;
      if shortHash !in formulas {
        return false;
      }
      var cf1 := formulas[shortHash];
      if !cf1.committed {
        CommitOneFacts(old(formulas), formulas, old(formulasDB), formulasDB, shortHash);
        formulasDB := formulasDB[cf1.formula.hash := Formulas.Bin(cf1.formula)];
        formulas := formulas[shortHash := cf1.(committed := true)];
      }
      short.SaveChildHash(hash);
      ok := true;
    }
    // ---- address versions, slots and code ----

    /** `GetAddressVersion`. */
    method GetAddressVersion(addr: Address) returns (r: Result<U64>)
      ensures r == VersionRead(versionsDB, addr)
    {
      if addr !in versionsDB {
        return Ok(0);
      }
      var val := versionsDB[addr];
      if |val| < 8 {
        return Fail("slice bounds out of range");
      }
      Pow256Facts();
      r := Ok(FromBE(val[..8]));
    }

    /** `IncreaseAddressVersion`: the stored version plus one, stored back; reading it again gives it. */
    method IncreaseAddressVersion(addr: Address) returns (r: Result<U64>)
      modifies this`versionsDB
      ensures old(VersionRead(versionsDB, addr)).Fail? ==> r.Fail? && versionsDB == old(versionsDB)
      ensures old(VersionRead(versionsDB, addr)).Ok? ==>
        && r == Ok(NextVersion(old(VersionRead(versionsDB, addr)).value))
        && versionsDB == old(versionsDB)[addr := BE64(r.value)]
      ensures r.Ok? ==> VersionRead(versionsDB, addr) == r
    {
      var version := GetAddressVersion(addr);
      if version.Fail? {
        return Fail(version.msg);
      }
      var next := NextVersion(version.value);
      versionsDB := versionsDB[addr := BE64(next)];
      VersionRoundTrip(old(versionsDB), addr, next);
      r := Ok(next);
    }

    /** `GetSlot`: the 32 bytes of a slot at the account's current version. */
    method GetSlot(addr: Address, slot: Word) returns (r: Result<seq<DEPByte>>)
      ensures r == SlotEntry(p, versionsDB, slotsDB, addr, slot)
      ensures r.Ok? ==> |r.value| == 32
    {
      var version := GetAddressVersion(addr);
      if version.Fail? {
        return Fail(version.msg);
      }
      SlotReadFound(p, slotsDB, addr, version.value, slot);
      var found := SlotBytes(slotsDB, addr, version.value, slot);
      if found.Fail? {
        return found;
      }
      var res := found.value;
      if |res| == 0 {
        return Ok(InitBytes(p, 32));
      }
      if |res| == 32 {
        return Ok(res);
      }
      r := Fail("Invalid number of results for slot");
    }

    /** The loop of `GetSlot`: the stored bytes of the slot, in position order. */
    static method SlotBytes(db: KV, addr: Address, v: U64, slot: Word) returns (r: Result<seq<DEPByte>>)
      ensures r == StoredBytes(db, addr, v, slot, 32)
    {
      var res: seq<DEPByte> := [];
      for i := 0 to 32
        invariant StoredBytes(db, addr, v, slot, i) == Ok(res)
      {
        var location := StoreLocation(addr, v, slot, i);
        if location in db {
          var b := DepBytes.FromBin(db[location]);
          if b.Fail? {
            StoredBytesFailStays(db, addr, v, slot, i + 1, 32);
            return Fail(b.msg);
          }
          res := res + [b.value];
        }
      }
      r := Ok(res);
    }

    /** `SetSlot`: exactly 32 bytes, written at the account's current version; `GetSlot` then reads them back. */
    method SetSlot(addr: Address, slot: Word, val: seq<DEPByte>) returns (ok: bool)
      modifies this`slotsDB
      ensures ok <==> old(SlotStored(versionsDB, slotsDB, addr, slot, val)).Ok?
      ensures ok ==> slotsDB == old(SlotStored(versionsDB, slotsDB, addr, slot, val)).value
      ensures !ok ==> slotsDB == old(slotsDB)
      ensures ok ==> SlotEntry(p, versionsDB, slotsDB, addr, slot) == Ok(val)
    {
      if |val| != 32 {
        return false;
      }
      var version := GetAddressVersion(addr);
      if version.Fail? {
        return false;
      }
      var v := version.value;
      for i := 0 to |val|
        invariant slotsDB == SlotWritten(old(slotsDB), addr, v, slot, val, i)
      {
        var location := StoreLocation(addr, v, slot, i);
        slotsDB := slotsDB[location := DepBytes.Bin(val[i])];
      }
      SlotEntryRoundTrip(p, versionsDB, old(slotsDB), addr, slot, val);
      ok := true;
    }

    /** `GetCode`: the code hash, the init-code hash and the code at the account's current version. */
    method GetCode(addr: Address) returns (r: Result<(Hash, Hash, seq<DEPByte>)>)
      requires |codesDB| < U64_LIMIT
      ensures r == CodeEntry(versionsDB, codeHashesDB, codesDB, addr)
    {
      var version := GetAddressVersion(addr);
      if version.Fail? {
        return Fail(version.msg);
      }
      var v := version.value;
      var location := CodeHashLocation(addr, v);
      var codeHash: Hash := ZERO_HASH;
      var initcodeHash: Hash := ZERO_HASH;
      if location in codeHashesDB {
        var codeHashData := codeHashesDB[location];
        if |codeHashData| < 32 {
          return Fail("slice bounds out of range");
        }
        codeHash := codeHashData[..32];
        initcodeHash := Pad32(codeHashData[32..]);
      }
      assert CodeHashesRead(codeHashesDB, addr, v) == Ok((codeHash, initcodeHash));
      var res: seq<DEPByte> := [];
      var i: nat := 0;
      PrependNil(CodeFrom(codesDB, addr, v, 0));
      while CodeLocation(addr, v, i) in codesDB
        invariant i <= |codesDB| && CodePrefixPresent(codesDB, addr, v, i)
        invariant CodeRead(codesDB, addr, v) == Prepend(res, CodeFrom(codesDB, addr, v, i))
        decreases |codesDB| - i
      {
        CodeFromStep(codesDB, addr, v, i, res);
        var b := DepBytes.FromBin(codesDB[CodeLocation(addr, v, i)]);
        if b.Fail? {
          return Fail(b.msg);
        }
        res := res + [b.value];
        i := i + 1;
      }
      PrependDone(res);
      r := Ok((codeHash, initcodeHash, res));
    }

    /**
     * `SetCode`: the two hashes and the code are written at the account's
     * current version, and the stale positions after the new code are
     * deleted; `GetCode` then reads back what was written.
     */
    method SetCode(addr: Address, val: seq<DEPByte>, codeHash: Hash, initcodeHash: Hash) returns (ok: bool)
      modifies this`codesDB, this`codeHashesDB
      ensures var s := old(CodeStored(versionsDB, codeHashesDB, codesDB, addr, val, codeHash, initcodeHash));
        && (ok <==> s.Ok?)
        && (ok ==> codeHashesDB == s.value.0 && codesDB == s.value.1)
        && (!ok ==> codeHashesDB == old(codeHashesDB) && codesDB == old(codesDB))
      ensures ok && old(|codesDB|) + 2 * |val| + 1 < U64_LIMIT ==>
        |codesDB| < U64_LIMIT && CodeEntry(versionsDB, codeHashesDB, codesDB, addr) == Ok((codeHash, initcodeHash, val))
    {
      var version := GetAddressVersion(addr);
      if version.Fail? {
        return false;
      }
      var v := version.value;
      codeHashesDB := codeHashesDB[CodeHashLocation(addr, v) := codeHash + initcodeHash];
      WriteCode(addr, v, val);
      DeleteCodeFrom(addr, v, |val|);
      if old(|codesDB|) + 2 * |val| + 1 < U64_LIMIT {
        CodeEntryRoundTrip(versionsDB, old(codeHashesDB), old(codesDB), addr, val, codeHash, initcodeHash);
      }
      ok := true;
    }

    /** The first loop of `SetCode`: byte `k` of `val` at code position `k`. */
    method WriteCode(addr: Address, v: U64, val: seq<DEPByte>)
      modifies this`codesDB
      ensures codesDB == CodeWritten(old(codesDB), addr, v, val, |val|)
    {
      var i := 0;
      while i < |val|
        invariant i <= |val| && codesDB == CodeWritten(old(codesDB), addr, v, val, i)
      {
        codesDB := codesDB[CodeLocation(addr, v, i) := DepBytes.Bin(val[i])];
        i := i + 1;
      }
    }

    /** The second loop of `SetCode`: positions from `start` on are deleted up to the first absent one. */
    method DeleteCodeFrom(addr: Address, v: U64, start: nat)
      modifies this`codesDB
      ensures codesDB == CodeDeleted(old(codesDB), addr, v, start)
    {
      var i := start;
      while CodeLocation(addr, v, i) in codesDB
        invariant CodeDeleted(old(codesDB), addr, v, start) == CodeDeleted(codesDB, addr, v, i)
        decreases |codesDB|
      {
        codesDB := codesDB - {CodeLocation(addr, v, i)};
        i := i + 1;
      }
      assert CodeDeleted(codesDB, addr, v, i) == codesDB;
    }
  }
}
