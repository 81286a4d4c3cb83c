// Which keys of the SimpleDB stores a commit of an overlay can touch: the
// slot bytes of the slots it wrote, the code records of the accounts whose
// code it wrote, and the versions of the accounts it destructed
// (tracer/dep_tracer/overlaydb.go:164-180 over simpledb.go:459-550).
module OverlayFrames {
  import opened Common
  import opened DepBytes
  import opened SimpleDbLayout

  /** `OverlayDBSlotKey`: an account and one of its storage slots. */
  datatype SlotKey = SlotKey(addr: Address, slot: Word)

  /** The account and slot a 61-byte slot-store key belongs to. */
  function LocKey(loc: seq<Byte>): Option<SlotKey>
  {
    if |loc| != 61 then None
    else
      Pow256Facts();
      Some(SlotKey(loc[..20], FromBE(loc[28..60])))
  }

  lemma LocKeyOfStore(a: Address, v: U64, s: Word, pos: Byte)
    ensures LocKey(StoreLocation(a, v, s, pos)) == Some(SlotKey(a, s))
  {
    StoreLocationParts(a, v, s, pos);
    Bytes32Decodes(s);
  }

  /** Two slot stores agree on every key that belongs to no slot of `keys`. */
  ghost predicate SlotsAgreeOutside(d0: KV, d1: KV, keys: set<SlotKey>)
  {
    forall loc :: (LocKey(loc).None? || LocKey(loc).value !in keys) ==>
      (loc in d0 <==> loc in d1) && (loc in d0 ==> d0[loc] == d1[loc])
  }

  lemma SlotsAgreeTrans(d0: KV, d1: KV, d2: KV, k1: set<SlotKey>, k2: set<SlotKey>, k: set<SlotKey>)
    requires SlotsAgreeOutside(d0, d1, k1) && SlotsAgreeOutside(d1, d2, k2) && k1 + k2 <= k
    ensures SlotsAgreeOutside(d0, d2, k)
  {
  }

  lemma SlotsAgreeWiden(d0: KV, d1: KV, k1: set<SlotKey>, k2: set<SlotKey>)
    requires SlotsAgreeOutside(d0, d1, k1) && k1 <= k2
    ensures SlotsAgreeOutside(d0, d1, k2)
  {
  }

  /** Writing the bytes of one slot changes only that slot's keys. */
  lemma {:induction false} SlotWrittenOutside(db: KV, a: Address, v: U64, s: Word, val: seq<DEPByte>, n: nat)
    requires n <= |val| == 32
    ensures SlotsAgreeOutside(db, SlotWritten(db, a, v, s, val, n), {SlotKey(a, s)})
  {
    if n > 0 {
      SlotWrittenOutside(db, a, v, s, val, n - 1);
      LocKeyOfStore(a, v, s, n - 1);
    }
  }

  lemma SlotStoredOutside(versions: KV, slots: KV, a: Address, s: Word, val: seq<DEPByte>)
    requires SlotStored(versions, slots, a, s, val).Ok?
    ensures SlotsAgreeOutside(slots, SlotStored(versions, slots, a, s, val).value, {SlotKey(a, s)})
  {
    SlotWrittenOutside(slots, a, VersionRead(versions, a).value, s, val, 32);
  }

  lemma {:induction false} StoredBytesAgree(d0: KV, d1: KV, a: Address, v: U64, s: Word, n: nat)
    requires n <= 32
    requires forall pos: Byte :: pos < n ==>
      (StoreLocation(a, v, s, pos) in d0 <==> StoreLocation(a, v, s, pos) in d1)
      && (StoreLocation(a, v, s, pos) in d0 ==> d0[StoreLocation(a, v, s, pos)] == d1[StoreLocation(a, v, s, pos)])
    ensures StoredBytes(d0, a, v, s, n) == StoredBytes(d1, a, v, s, n)
  {
    if n > 0 {
      StoredBytesAgree(d0, d1, a, v, s, n - 1);
    }
  }

  /** A slot outside `keys` reads the same from two stores that agree outside `keys`. */
  lemma SlotEntryAgree(p: Prims, versions: KV, d0: KV, d1: KV, keys: set<SlotKey>, a: Address, s: Word)
    requires SlotsAgreeOutside(d0, d1, keys) && SlotKey(a, s) !in keys
    ensures SlotEntry(p, versions, d0, a, s) == SlotEntry(p, versions, d1, a, s)
  {
    match VersionRead(versions, a)
    case Fail(_) =>
    case Ok(v) =>
      forall pos: Byte
        ensures (StoreLocation(a, v, s, pos) in d0 <==> StoreLocation(a, v, s, pos) in d1)
          && (StoreLocation(a, v, s, pos) in d0 ==> d0[StoreLocation(a, v, s, pos)] == d1[StoreLocation(a, v, s, pos)])
      {
        LocKeyOfStore(a, v, s, pos);
      }
      StoredBytesAgree(d0, d1, a, v, s, 32);
  }

  /** The account a code or code-hash store key belongs to: its first 20 bytes. */
  function Owner(key: seq<Byte>): Option<Address>
  {
    if |key| >= 20 then var a: Address := key[..20]; Some(a) else None
  }

  /** Two code stores agree on every key that belongs to no account of `addrs`. */
  ghost predicate CodesAgreeOutside(d0: KV, d1: KV, addrs: set<Address>)
  {
    forall key :: (Owner(key).None? || Owner(key).value !in addrs) ==>
      (key in d0 <==> key in d1) && (key in d0 ==> d0[key] == d1[key])
  }

  lemma CodesAgreeTrans(d0: KV, d1: KV, d2: KV, k1: set<Address>, k2: set<Address>, k: set<Address>)
    requires CodesAgreeOutside(d0, d1, k1) && CodesAgreeOutside(d1, d2, k2) && k1 + k2 <= k
    ensures CodesAgreeOutside(d0, d2, k)
  {
  }

  lemma {:induction false} CodeWrittenOutside(db: KV, a: Address, v: U64, val: seq<DEPByte>, n: nat)
    requires n <= |val|
    ensures CodesAgreeOutside(db, CodeWritten(db, a, v, val, n), {a})
  {
    if n > 0 {
      CodeWrittenOutside(db, a, v, val, n - 1);
    }
  }

  lemma {:induction false} CodeDeletedOutside(db: KV, a: Address, v: U64, i: nat)
    ensures CodesAgreeOutside(db, CodeDeleted(db, a, v, i), {a})
    decreases |db|
  {
    var loc := CodeLocation(a, v, i);
    if loc in db {
      CodeDeletedOutside(db - {loc}, a, v, i + 1);
    }
  }

  lemma CodesAgreeWiden(d0: KV, d1: KV, k1: set<Address>, k2: set<Address>)
    requires CodesAgreeOutside(d0, d1, k1) && k1 <= k2
    ensures CodesAgreeOutside(d0, d1, k2)
  {
  }

  /** `SetCode` changes only keys of its own account, in both stores. */
  lemma CodeStoredOutside(versions: KV, hashes: KV, codes: KV, a: Address, val: seq<DEPByte>, ch: Hash, ih: Hash)
    requires CodeStored(versions, hashes, codes, a, val, ch, ih).Ok?
    ensures var s := CodeStored(versions, hashes, codes, a, val, ch, ih).value;
      CodesAgreeOutside(hashes, s.0, {a}) && CodesAgreeOutside(codes, s.1, {a})
  {
    var v := VersionRead(versions, a).value;
    var w := CodeWritten(codes, a, v, val, |val|);
    CodeWrittenOutside(codes, a, v, val, |val|);
    CodeDeletedOutside(w, a, v, |val|);
  }

  /**
   * The version store after bumping the accounts `addrs` once each: each of
   * them read as one more than before, every other account unchanged.
   */
  ghost predicate Bumped(v0: KV, v1: KV, addrs: set<Address>)
  {
    forall a :: if a in addrs then VersionRead(v0, a).Ok? && VersionRead(v1, a) == Ok(NextVersion(VersionRead(v0, a).value))
                else VersionRead(v1, a) == VersionRead(v0, a)
  }

  /** Bumping one more account, not bumped before, by one. */
  lemma BumpedStep(v0: KV, v1: KV, done: set<Address>, a: Address)
    requires Bumped(v0, v1, done) && a !in done && VersionRead(v1, a).Ok?
    ensures Bumped(v0, v1[a := BE64(NextVersion(VersionRead(v1, a).value))], done + {a})
  {
    var next := NextVersion(VersionRead(v1, a).value);
    var v2 := v1[a := BE64(next)];
    VersionRoundTrip(v1, a, next);
    forall b: Address
      ensures if b in done + {a} then VersionRead(v0, b).Ok? && VersionRead(v2, b) == Ok(NextVersion(VersionRead(v0, b).value))
              else VersionRead(v2, b) == VersionRead(v0, b)
    {
      if b != a {
        assert VersionRead(v2, b) == VersionRead(v1, b);
      }
    }
  }
}
