// The key layouts of the persistent stores of SimpleDB
// (tracer/dep_tracer/simpledb.go:37-57, 459-550), and what reading and
// writing slots, code and address versions does to those stores.  The
// SimpleDB methods in simpledb.dfy are proved against these functions.
module SimpleDbLayout {
  import opened Common
  import opened DepBytes

  /** `storeLocation`: address, BE64 version, 32-byte slot, byte position. */
  function StoreLocation(addr: Address, version: U64, slot: Word, pos: Byte): (r: seq<Byte>)
    ensures |r| == 61
  {
    addr + BE64(version) + Bytes32(slot) + [pos]
  }

  /** The fields of a slot-byte key, at their fixed offsets. */
  lemma StoreLocationParts(addr: Address, version: U64, slot: Word, pos: Byte)
    ensures var r := StoreLocation(addr, version, slot, pos);
      r[..20] == addr && r[20..28] == BE64(version) && r[28..60] == Bytes32(slot) && r[60] == pos
  {
    var r := StoreLocation(addr, version, slot, pos);
    assert r == addr + BE64(version) + Bytes32(slot) + [pos];
  }

  /** `codeHashLocation`: address and BE64 version. */
  function CodeHashLocation(addr: Address, version: U64): (r: seq<Byte>)
    ensures |r| == 28 && r[..20] == addr && r[20..] == BE64(version)
  {
    addr + BE64(version)
  }

  /** `codeLocation`: address, BE64 version, BE64 position (a `uint64`, so modulo 2^64). */
  function CodeLocation(addr: Address, version: U64, pos: nat): (r: seq<Byte>)
    ensures |r| == 36 && r[..20] == addr && r[20..28] == BE64(version) && r[28..] == BE(pos, 8)
  {
    addr + BE64(version) + BE(pos, 8)
  }

  /** Distinct slot bytes of distinct accounts, versions and slots never share a key. */
  lemma StoreLocationInjective(a1: Address, v1: U64, s1: Word, p1: Byte, a2: Address, v2: U64, s2: Word, p2: Byte)
    requires StoreLocation(a1, v1, s1, p1) == StoreLocation(a2, v2, s2, p2)
    ensures a1 == a2 && v1 == v2 && s1 == s2 && p1 == p2
  {
    var l1 := StoreLocation(a1, v1, s1, p1);
    var l2 := StoreLocation(a2, v2, s2, p2);
    StoreLocationParts(a1, v1, s1, p1);
    StoreLocationParts(a2, v2, s2, p2);
    assert BE64(v1) == l1[20..28] == l2[20..28] == BE64(v2);
    assert Bytes32(s1) == l1[28..60] == l2[28..60] == Bytes32(s2);
    Bytes32Decodes(s1);
    Bytes32Decodes(s2);
  }

  lemma CodeLocationInjective(a1: Address, v1: U64, i1: nat, a2: Address, v2: U64, i2: nat)
    requires i1 < U64_LIMIT && i2 < U64_LIMIT
    requires CodeLocation(a1, v1, i1) == CodeLocation(a2, v2, i2)
    ensures a1 == a2 && v1 == v2 && i1 == i2
  {
    var l1 := CodeLocation(a1, v1, i1);
    var l2 := CodeLocation(a2, v2, i2);
    assert BE64(v1) == l1[20..28] == l2[20..28] == BE64(v2);
    assert BE(i1, 8) == l1[28..] == l2[28..] == BE(i2, 8);
    Pow256Facts();
    BEInjective(i1, i2, 8);
  }

  // ---- address versions ----

  /** `GetAddressVersion`: 0 when nothing is stored, else the first 8 stored bytes (fewer fail). */
  function VersionRead(db: KV, addr: Address): (r: Result<U64>)
    ensures addr !in db ==> r == Ok(0)
  {
    if addr !in db then Ok(0)
    else if |db[addr]| < 8 then Fail("slice bounds out of range")
    else
      Pow256Facts();
      Ok(FromBE(db[addr][..8]))
  }

  /** The version `IncreaseAddressVersion` stores: one more, as a `uint64`. */
  function NextVersion(v: U64): U64
  {
    (v + 1) % U64_LIMIT
  }

  /** A stored version is read back. */
  lemma VersionRoundTrip(db: KV, addr: Address, v: U64)
    ensures VersionRead(db[addr := BE64(v)], addr) == Ok(v)
  {
    assert BE64(v)[..8] == BE64(v);
  }

  // ---- slots ----

  /** The bytes of `slot` found at positions `0 .. n-1`, in order, skipping missing ones. */
  function StoredBytes(db: KV, addr: Address, version: U64, slot: Word, n: nat): Result<seq<DEPByte>>
    requires n <= 32
  {
    if n == 0 then Ok([])
    else
      var prev := StoredBytes(db, addr, version, slot, n - 1);
      var loc := StoreLocation(addr, version, slot, n - 1);
      if prev.Fail? then prev
      else if loc !in db then prev
      else match DepBytes.FromBin(db[loc])
        case Ok(b) => Ok(prev.value + [b])
        case Fail(m) => Fail(m)
  }

  /** Once reading the stored bytes fails, reading more of them fails the same way. */
  lemma {:induction false} StoredBytesFailStays(db: KV, addr: Address, version: U64, slot: Word, n: nat, m: nat)
    requires n <= m <= 32 && StoredBytes(db, addr, version, slot, n).Fail?
    ensures StoredBytes(db, addr, version, slot, m) == StoredBytes(db, addr, version, slot, n)
    decreases m
  {
    if m > n {
      StoredBytesFailStays(db, addr, version, slot, n, m - 1);
    }
  }

  /**
   * `GetSlot`: with no stored byte the slot reads as 32 init-zero bytes, with
   * all 32 it reads as them, and anything in between fails.
   */
  function SlotRead(p: Prims, db: KV, addr: Address, version: U64, slot: Word): (r: Result<seq<DEPByte>>)
    ensures r.Ok? ==> |r.value| == 32
  {
    var found := StoredBytes(db, addr, version, slot, 32);
    if found.Fail? then found
    else if |found.value| == 0 then Ok(InitBytes(p, 32))
    else if |found.value| == 32 then found
    else Fail("Invalid number of results for slot")
  }

  /** `SlotRead` from what `StoredBytes` found. */
  lemma SlotReadFound(p: Prims, db: KV, addr: Address, version: U64, slot: Word)
    ensures var found := StoredBytes(db, addr, version, slot, 32);
      SlotRead(p, db, addr, version, slot) ==
        if found.Fail? then found
        else if |found.value| == 0 then Ok(InitBytes(p, 32))
        else if |found.value| == 32 then found
        else Fail("Invalid number of results for slot")
  {
  }

  /** The slot store after writing the first `n` bytes of `val` (the loop of `SetSlot`). */
  function SlotWritten(db: KV, addr: Address, version: U64, slot: Word, val: seq<DEPByte>, n: nat): KV
    requires n <= |val| == 32
  {
    if n == 0 then db
    else SlotWritten(db, addr, version, slot, val, n - 1)[StoreLocation(addr, version, slot, n - 1) := DepBytes.Bin(val[n - 1])]
  }

  lemma {:induction false} SlotWrittenAt(db: KV, addr: Address, version: U64, slot: Word, val: seq<DEPByte>, n: nat, k: nat)
    requires n <= |val| == 32 && k < n
    ensures var w := SlotWritten(db, addr, version, slot, val, n);
      var loc := StoreLocation(addr, version, slot, k);
      loc in w && w[loc] == DepBytes.Bin(val[k])
  {
    if k < n - 1 {
      SlotWrittenAt(db, addr, version, slot, val, n - 1, k);
      if StoreLocation(addr, version, slot, k) == StoreLocation(addr, version, slot, n - 1) {
        StoreLocationInjective(addr, version, slot, k, addr, version, slot, n - 1);
      }
    }
  }

  lemma {:induction false} StoredBytesAfterWrite(db: KV, addr: Address, version: U64, slot: Word, val: seq<DEPByte>, m: nat, n: nat)
    requires n <= m <= |val| == 32
    ensures StoredBytes(SlotWritten(db, addr, version, slot, val, m), addr, version, slot, n) == Ok(val[..n])
  {
    if n > 0 {
      StoredBytesAfterWrite(db, addr, version, slot, val, m, n - 1);
      SlotWrittenAt(db, addr, version, slot, val, m, n - 1);
      DepBytes.BinRoundTrip(val[n - 1]);
      assert val[..n] == val[..n - 1] + [val[n - 1]];
    }
  }

  /** `GetSlot` after `SetSlot` at the same account version gives back the 32 bytes written. */
  lemma SlotRoundTrip(p: Prims, db: KV, addr: Address, version: U64, slot: Word, val: seq<DEPByte>)
    requires |val| == 32
    ensures SlotRead(p, SlotWritten(db, addr, version, slot, val, 32), addr, version, slot) == Ok(val)
  {
    StoredBytesAfterWrite(db, addr, version, slot, val, 32, 32);
    assert val[..32] == val;
  }

  lemma {:induction false} StoredBytesNone(db: KV, addr: Address, version: U64, slot: Word, n: nat)
    requires n <= 32
    requires forall k: Byte :: StoreLocation(addr, version, slot, k) !in db
    ensures StoredBytes(db, addr, version, slot, n) == Ok([])
  {
    if n > 0 {
      StoredBytesNone(db, addr, version, slot, n - 1);
    }
  }

  /** A never-written slot reads as 32 init-zero bytes. */
  lemma SlotReadEmpty(p: Prims, db: KV, addr: Address, version: U64, slot: Word)
    requires forall k: Byte :: StoreLocation(addr, version, slot, k) !in db
    ensures SlotRead(p, db, addr, version, slot) == Ok(InitBytes(p, 32))
  {
    StoredBytesNone(db, addr, version, slot, 32);
  }

  // ---- code ----

  /** The code-hash record is the code hash then the init-code hash; the second is zero-padded or cut to 32 bytes. */
  function Pad32(s: seq<Byte>): (r: Hash)
    ensures |s| >= 32 ==> r == s[..32]
    ensures |s| < 32 ==> r[..|s|] == s && AllZero(r[|s|..])
  {
    if |s| >= 32 then s[..32] else s + Zeros(32 - |s|)
  }

  /** The two hashes `GetCode` returns: zero when no record exists; a record shorter than 32 bytes fails. */
  function CodeHashesRead(db: KV, addr: Address, version: U64): Result<(Hash, Hash)>
  {
    var loc := CodeHashLocation(addr, version);
    if loc !in db then Ok((ZERO_HASH, ZERO_HASH))
    else if |db[loc]| < 32 then Fail("slice bounds out of range")
    else
      var codeHash: Hash := db[loc][..32];
      Ok((codeHash, Pad32(db[loc][32..])))
  }

  lemma CodeHashesRoundTrip(db: KV, addr: Address, version: U64, codeHash: Hash, initcodeHash: Hash)
    ensures CodeHashesRead(db[CodeHashLocation(addr, version) := codeHash + initcodeHash], addr, version)
      == Ok((codeHash, initcodeHash))
  {
    var v := codeHash + initcodeHash;
    assert v[..32] == codeHash;
    assert Pad32(initcodeHash) == initcodeHash;
    assert v[32..] == initcodeHash;
  }

  /** Positions `0 .. i-1` of the code of `addr` at `version` are all stored. */
  predicate CodePrefixPresent(db: KV, addr: Address, version: U64, i: nat)
  {
    forall k :: 0 <= k < i ==> CodeLocation(addr, version, k) in db
  }

  function CodeKeys(addr: Address, version: U64, i: nat): set<seq<Byte>>
  {
    set k | 0 <= k < i :: CodeLocation(addr, version, k)
  }

  lemma {:induction false} CodeKeysSize(addr: Address, version: U64, i: nat)
    requires i <= U64_LIMIT
    ensures |CodeKeys(addr, version, i)| == i
  {
    if i > 0 {
      CodeKeysSize(addr, version, i - 1);
      var loc := CodeLocation(addr, version, i - 1);
      assert CodeKeys(addr, version, i) == CodeKeys(addr, version, i - 1) + {loc};
      if loc in CodeKeys(addr, version, i - 1) {
        var k :| 0 <= k < i - 1 && CodeLocation(addr, version, k) == loc;
        CodeLocationInjective(addr, version, k, addr, version, i - 1);
      }
    }
  }

  /** A stored prefix of positions can be no longer than the store. */
  lemma PrefixBound(db: KV, addr: Address, version: U64, i: nat)
    requires i <= U64_LIMIT && CodePrefixPresent(db, addr, version, i)
    ensures i <= |db|
  {
    CodeKeysSize(addr, version, i);
    var ks := CodeKeys(addr, version, i);
    assert ks <= db.Keys;
    assert db.Keys == ks + (db.Keys - ks);
  }

  /** The code bytes `GetCode` collects from position `i` on, up to the first missing position. */
  function CodeFrom(db: KV, addr: Address, version: U64, i: nat): Result<seq<DEPByte>>
    requires |db| < U64_LIMIT
    requires i <= |db| && CodePrefixPresent(db, addr, version, i)
    decreases |db| - i
  {
    var loc := CodeLocation(addr, version, i);
    if loc !in db then Ok([])
    else
      PrefixBound(db, addr, version, i + 1);
      match DepBytes.FromBin(db[loc])
      case Fail(m) => Fail(m)
      case Ok(b) =>
        var rest := CodeFrom(db, addr, version, i + 1);
        if rest.Fail? then rest else Ok([b] + rest.value)
  }

  function CodeRead(db: KV, addr: Address, version: U64): Result<seq<DEPByte>>
    requires |db| < U64_LIMIT
  {
    CodeFrom(db, addr, version, 0)
  }

  /** `r` with `res` in front of its value. */
  function Prepend<T>(res: seq<T>, r: Result<seq<T>>): Result<seq<T>>
  {
    match r
    case Ok(v) => Ok(res + v)
    case Fail(m) => Fail(m)
  }

  lemma PrependNil<T>(r: Result<seq<T>>)
    ensures Prepend([], r) == r
  {
    if r.Ok? {
      assert [] + r.value == r.value;
    }
  }

  lemma PrependDone<T>(res: seq<T>)
    ensures Prepend(res, Ok([])) == Ok(res)
  {
    assert res + [] == res;
  }

  /** One iteration of the loop of `GetCode`: the byte at a present position `i` is read and kept, or its decoding fails. */
  lemma CodeFromStep(db: KV, addr: Address, version: U64, i: nat, res: seq<DEPByte>)
    requires |db| < U64_LIMIT && i <= |db| && CodePrefixPresent(db, addr, version, i)
    requires CodeLocation(addr, version, i) in db
    ensures i + 1 <= |db| && CodePrefixPresent(db, addr, version, i + 1)
    ensures match DepBytes.FromBin(db[CodeLocation(addr, version, i)])
      case Fail(m) => CodeFrom(db, addr, version, i) == Fail(m)
      case Ok(b) => Prepend(res, CodeFrom(db, addr, version, i)) == Prepend(res + [b], CodeFrom(db, addr, version, i + 1))
  {
    PrefixBound(db, addr, version, i + 1);
    match DepBytes.FromBin(db[CodeLocation(addr, version, i)])
    case Fail(m) =>
    case Ok(b) =>
      var rest := CodeFrom(db, addr, version, i + 1);
      if rest.Ok? {
        assert res + ([b] + rest.value) == (res + [b]) + rest.value;
      }
  }

  /** The code store after the first loop of `SetCode` has written `n` bytes. */
  function CodeWritten(db: KV, addr: Address, version: U64, val: seq<DEPByte>, n: nat): KV
    requires n <= |val|
  {
    if n == 0 then db
    else CodeWritten(db, addr, version, val, n - 1)[CodeLocation(addr, version, n - 1) := DepBytes.Bin(val[n - 1])]
  }

  /** The second loop of `SetCode`: deletes positions from `i` on while they are present. */
  function CodeDeleted(db: KV, addr: Address, version: U64, i: nat): KV
    decreases |db|
  {
    var loc := CodeLocation(addr, version, i);
    if loc in db then CodeDeleted(db - {loc}, addr, version, i + 1) else db
  }

  lemma {:induction false} CodeWrittenAt(db: KV, addr: Address, version: U64, val: seq<DEPByte>, n: nat, k: nat)
    requires n <= |val| < U64_LIMIT && k < n
    ensures var w := CodeWritten(db, addr, version, val, n);
      CodeLocation(addr, version, k) in w && w[CodeLocation(addr, version, k)] == DepBytes.Bin(val[k])
  {
    if k < n - 1 {
      CodeWrittenAt(db, addr, version, val, n - 1, k);
      if CodeLocation(addr, version, k) == CodeLocation(addr, version, n - 1) {
        CodeLocationInjective(addr, version, k, addr, version, n - 1);
      }
    }
  }

  lemma {:induction false} CodeWrittenSize(db: KV, addr: Address, version: U64, val: seq<DEPByte>, n: nat)
    requires n <= |val|
    ensures |CodeWritten(db, addr, version, val, n)| <= |db| + n
  {
    if n > 0 {
      CodeWrittenSize(db, addr, version, val, n - 1);
    }
  }

  /**
   * Deletion from `i` removes only positions `i ..`, which stay below 2^64
   * while the store is small, and leaves position `i` absent.
   */
  lemma {:induction false} CodeDeletedFacts(db: KV, addr: Address, version: U64, i: nat, k: nat)
    requires i + |db| < U64_LIMIT
    ensures var d := CodeDeleted(db, addr, version, i);
      && CodeLocation(addr, version, i) !in d
      && d.Keys <= db.Keys
      && (forall key :: key in d ==> d[key] == db[key])
      && (k < i && CodeLocation(addr, version, k) in db ==> CodeLocation(addr, version, k) in d)
    decreases |db|
  {
    var loc := CodeLocation(addr, version, i);
    if loc in db {
      CodeDeletedFacts(db - {loc}, addr, version, i + 1, k);
      if k < i && CodeLocation(addr, version, k) == loc {
        CodeLocationInjective(addr, version, k, addr, version, i);
      }
      var d := CodeDeleted(db - {loc}, addr, version, i + 1);
      assert loc !in d;
    }
  }

  lemma {:induction false} CodeFromWritten(d: KV, addr: Address, version: U64, val: seq<DEPByte>, i: nat)
    requires |d| < U64_LIMIT && i <= |val| <= |d|
    requires forall k :: 0 <= k < |val| ==> CodeLocation(addr, version, k) in d && d[CodeLocation(addr, version, k)] == DepBytes.Bin(val[k])
    requires CodeLocation(addr, version, |val|) !in d
    ensures CodePrefixPresent(d, addr, version, i) && CodeFrom(d, addr, version, i) == Ok(val[i..])
    decreases |val| - i
  {
    if i < |val| {
      CodeFromWritten(d, addr, version, val, i + 1);
      DepBytes.BinRoundTrip(val[i]);
      assert DepBytes.FromBin(d[CodeLocation(addr, version, i)]) == Ok(val[i]);
      assert val[i..] == [val[i]] + val[i + 1..];
    } else {
      assert val[i..] == [];
    }
  }

  /**
   * `GetCode` after `SetCode` returns exactly the bytes written: the stale
   * tail of a longer earlier code is deleted.
   */
  lemma CodeRoundTrip(db: KV, addr: Address, version: U64, val: seq<DEPByte>)
    requires |db| + 2 * |val| + 1 < U64_LIMIT
    ensures var d := CodeDeleted(CodeWritten(db, addr, version, val, |val|), addr, version, |val|);
      |d| < U64_LIMIT && CodeRead(d, addr, version) == Ok(val)
  {
    var w := CodeWritten(db, addr, version, val, |val|);
    CodeWrittenSize(db, addr, version, val, |val|);
    var d := CodeDeleted(w, addr, version, |val|);
    CodeDeletedFacts(w, addr, version, |val|, 0);
    assert |d| <= |w| by {
      assert w.Keys == d.Keys + (w.Keys - d.Keys);
    }
    forall k | 0 <= k < |val|
      ensures CodeLocation(addr, version, k) in d && d[CodeLocation(addr, version, k)] == DepBytes.Bin(val[k])
    {
      CodeWrittenAt(db, addr, version, val, |val|, k);
      CodeDeletedFacts(w, addr, version, |val|, k);
    }
    PrefixBound(d, addr, version, |val|);
    CodeFromWritten(d, addr, version, val, 0);
  }

  // ---- whole operations over the stores ----

  /** `GetSlot`: the slot at the account's current version. */
  function SlotEntry(p: Prims, versions: KV, slots: KV, addr: Address, slot: Word): Result<seq<DEPByte>>
  {
    match VersionRead(versions, addr)
    case Fail(m) => Fail(m)
    case Ok(v) => SlotRead(p, slots, addr, v, slot)
  }

  /** The slot store after `SetSlot`: exactly 32 bytes are written at the account's current version. */
  function SlotStored(versions: KV, slots: KV, addr: Address, slot: Word, val: seq<DEPByte>): Result<KV>
  {
    if |val| != 32 then Fail("Invalid number of arguments for slot")
    else match VersionRead(versions, addr)
      case Fail(m) => Fail(m)
      case Ok(v) => Ok(SlotWritten(slots, addr, v, slot, val, 32))
  }

  /** A slot written by `SetSlot` reads back as the 32 bytes written. */
  lemma SlotEntryRoundTrip(p: Prims, versions: KV, slots: KV, addr: Address, slot: Word, val: seq<DEPByte>)
    requires SlotStored(versions, slots, addr, slot, val).Ok?
    ensures SlotEntry(p, versions, SlotStored(versions, slots, addr, slot, val).value, addr, slot) == Ok(val)
  {
    SlotRoundTrip(p, slots, addr, VersionRead(versions, addr).value, slot, val);
  }

  /** `GetCode`: the two hashes and the code at the account's current version. */
  function CodeEntry(versions: KV, hashes: KV, codes: KV, addr: Address): Result<(Hash, Hash, seq<DEPByte>)>
    requires |codes| < U64_LIMIT
  {
    match VersionRead(versions, addr)
    case Fail(m) => Fail(m)
    case Ok(v) =>
      match CodeHashesRead(hashes, addr, v)
      case Fail(m) => Fail(m)
      case Ok(hs) =>
        match CodeRead(codes, addr, v)
        case Fail(m) => Fail(m)
        case Ok(code) => Ok((hs.0, hs.1, code))
  }

  /** The code-hash and code stores after `SetCode` at the account's current version. */
  function CodeStored(versions: KV, hashes: KV, codes: KV, addr: Address, val: seq<DEPByte>,
                      codeHash: Hash, initcodeHash: Hash): Result<(KV, KV)>
  {
    match VersionRead(versions, addr)
    case Fail(m) => Fail(m)
    case Ok(v) =>
      Ok((hashes[CodeHashLocation(addr, v) := codeHash + initcodeHash],
          CodeDeleted(CodeWritten(codes, addr, v, val, |val|), addr, v, |val|)))
  }

  /** Code stored by `SetCode` reads back, with its two hashes, while the store stays below 2^64 entries. */
  lemma CodeEntryRoundTrip(versions: KV, hashes: KV, codes: KV, addr: Address, val: seq<DEPByte>,
                           codeHash: Hash, initcodeHash: Hash)
    requires |codes| + 2 * |val| + 1 < U64_LIMIT
    requires CodeStored(versions, hashes, codes, addr, val, codeHash, initcodeHash).Ok?
    ensures var s := CodeStored(versions, hashes, codes, addr, val, codeHash, initcodeHash).value;
      |s.1| < U64_LIMIT && CodeEntry(versions, s.0, s.1, addr) == Ok((codeHash, initcodeHash, val))
  {
    var v := VersionRead(versions, addr).value;
    CodeRoundTrip(codes, addr, v, val);
    CodeHashesRoundTrip(hashes, addr, v, codeHash, initcodeHash);
  }
}
