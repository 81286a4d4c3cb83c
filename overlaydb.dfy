// The per-transaction-state overlay over the SimpleDB stores
// (tracer/dep_tracer/overlaydb.go): slots, code and address versions are
// read through once and cached, writes stay in the overlay until `Commit`,
// and transient storage lives only here.  The overlay's maps are the value
// `Overlay`; the functions below say what each operation does to it, the
// class `OverlayDB` is the object the source mutates, and `CommitOverlay`
// writes an overlay into the SimpleDB.
module Overlays {
  import opened Common
  import opened Formulas
  import opened DepBytes
  import opened Logging
  import opened SimpleDbLayout
  import opened SimpleDb
  import opened SolViews
  import opened OverlayFrames

  datatype OverlaySlot = OverlaySlot(data: seq<DEPByte>, codeAddr: Address)
  datatype OverlayCode = OverlayCode(data: seq<DEPByte>, codeAddr: Address, codeHash: Hash, initcodeHash: Hash)

  /** The maps of an `OverlayDB`; each `map[K]bool` is a set, and a nil `transient` map is `None`. */
  datatype Overlay = Overlay(
    slots: map<SlotKey, OverlaySlot>, updatedSlots: set<SlotKey>,
    codes: map<Address, OverlayCode>, updatedCodes: set<Address>,
    selfdestructed: set<Address>, created: set<Address>,
    versions: map<Address, U64>, transient: Option<map<SlotKey, seq<DEPByte>>>)

  /** The SimpleDB stores an overlay reads through. */
  datatype Base = Base(versions: KV, slots: KV, codeHashes: KV, codes: KV)

  /** The overlay after a read: the read value and the overlay with it cached. */
  datatype Read<T> = Read(o: Overlay, value: T)

  /** `OverlayDBNew`: every map empty, and `transient` left nil. */
  function OverlayNew(): (o: Overlay)
    ensures o.transient == None && o.slots == map[] && o.codes == map[] && o.versions == map[]
    ensures o.updatedSlots == {} && o.updatedCodes == {} && o.selfdestructed == {} && o.created == {}
  {
    Overlay(map[], {}, map[], {}, {}, {}, map[], None)
  }

  /** `Copy`: the same contents, with `transient` made as a map even where it was nil. */
  function OverlayCopy(o: Overlay): (r: Overlay)
    ensures r.(transient := o.transient) == o
    ensures r.transient.Some? && (o.transient.Some? ==> r.transient == o.transient)
    ensures o.transient.None? ==> r.transient == Some(map[])
  {
    Overlay(o.slots, o.updatedSlots, o.codes, o.updatedCodes, o.selfdestructed, o.created, o.versions,
            Some(if o.transient.Some? then o.transient.value else map[]))
  }

  /** What a read keeps: the marks `Commit` acts on, and every entry already cached. */
  predicate SameWrites(o: Overlay, r: Overlay)
  {
    r.updatedSlots == o.updatedSlots && r.updatedCodes == o.updatedCodes
    && r.selfdestructed == o.selfdestructed && r.created == o.created
    && (forall k :: k in o.slots ==> k in r.slots && r.slots[k] == o.slots[k])
    && (forall a :: a in o.codes ==> a in r.codes && r.codes[a] == o.codes[a])
  }

  /** `GetAddressVersion`: the cached version, or the store's, cached on first use. */
  function ReadVersion(o: Overlay, b: Base, addr: Address): (r: Result<Read<U64>>)
    ensures r.Ok? ==> r.value.o == o.(versions := r.value.o.versions) && SameWrites(o, r.value.o)
    ensures r.Ok? ==> addr in r.value.o.versions && r.value.o.versions[addr] == r.value.value
    ensures r.Ok? ==> forall a :: a in o.versions ==> a in r.value.o.versions && r.value.o.versions[a] == o.versions[a]
    ensures addr in o.versions ==> r == Ok(Read(o, o.versions[addr]))
    ensures addr !in o.versions ==> (r.Ok? <==> VersionRead(b.versions, addr).Ok?)
    ensures addr !in o.versions && r.Ok? ==> r.value.value == VersionRead(b.versions, addr).value
  {
    if addr in o.versions then Ok(Read(o, o.versions[addr]))
    else match VersionRead(b.versions, addr)
      case Fail(m) => Fail(m)
      case Ok(v) => Ok(Read(o.(versions := o.versions[addr := v]), v))
  }

  /** `GetSlot`: the cached slot, or the store's with no code address, cached without being marked updated. */
  function ReadSlot(o: Overlay, p: Prims, b: Base, addr: Address, slot: Word): (r: Result<Read<OverlaySlot>>)
    ensures r.Ok? ==> SameWrites(o, r.value.o) && r.value.o.transient == o.transient
    ensures r.Ok? ==> SlotKey(addr, slot) in r.value.o.slots && r.value.o.slots[SlotKey(addr, slot)] == r.value.value
    ensures SlotKey(addr, slot) in o.slots ==> r == Ok(Read(o, o.slots[SlotKey(addr, slot)]))
    ensures SlotKey(addr, slot) !in o.slots ==>
      (r.Ok? <==> SlotEntry(p, b.versions, b.slots, addr, slot).Ok?)
      && (r.Ok? ==> r.value.value == OverlaySlot(SlotEntry(p, b.versions, b.slots, addr, slot).value, ZERO_ADDRESS))
  {
    var key := SlotKey(addr, slot);
    if key in o.slots then Ok(Read(o, o.slots[key]))
    else match SlotEntry(p, b.versions, b.slots, addr, slot)
      case Fail(m) => Fail(m)
      case Ok(data) =>
        var val := OverlaySlot(data, ZERO_ADDRESS);
        Ok(Read(o.(slots := o.slots[key := val]), val))
  }

  /** `SetSlot`: the value and the code address that wrote it, marked updated. */
  function WriteSlot(o: Overlay, addr: Address, codeAddr: Address, slot: Word, val: seq<DEPByte>): (r: Overlay)
    ensures r.updatedSlots == o.updatedSlots + {SlotKey(addr, slot)} && r.created == o.created
  {
    var key := SlotKey(addr, slot);
    o.(slots := o.slots[key := OverlaySlot(val, codeAddr)], updatedSlots := o.updatedSlots + {key})
  }

  /**
   * `GetTransient`: the stored value, else 32 init-zero bytes, cached.  On
   * a nil map the cache write panics.
   */
  function ReadTransient(o: Overlay, p: Prims, addr: Address, slot: Word): (r: Result<Read<seq<DEPByte>>>)
    ensures r.Ok? <==> o.transient.Some?
    ensures r.Ok? ==> SameWrites(o, r.value.o) && r.value.o.transient.Some?
    ensures r.Ok? ==> (SlotKey(addr, slot) in r.value.o.transient.value
                       && r.value.o.transient.value[SlotKey(addr, slot)] == r.value.value)
  {
    var key := SlotKey(addr, slot);
    match o.transient
    case None => Fail("assignment to entry in nil map")
    case Some(t) =>
      if key in t then Ok(Read(o, t[key]))
      else
        var val := InitBytes(p, 32);
        Ok(Read(o.(transient := Some(t[key := val])), val))
  }

  function WriteTransient(o: Overlay, addr: Address, slot: Word, val: seq<DEPByte>): (r: Result<Overlay>)
    ensures r.Ok? <==> o.transient.Some?
    ensures r.Ok? ==> SameWrites(o, r.value)
  {
    match o.transient
    case None => Fail("assignment to entry in nil map")
    case Some(t) => Ok(o.(transient := Some(t[SlotKey(addr, slot) := val])))
  }

  /** `GetCode`: the cached code, or the store's with no code address, cached. */
  function ReadCode(o: Overlay, b: Base, addr: Address): (r: Result<Read<OverlayCode>>)
    requires |b.codes| < U64_LIMIT
    ensures r.Ok? ==> SameWrites(o, r.value.o) && r.value.o.transient == o.transient
    ensures r.Ok? ==> addr in r.value.o.codes && r.value.o.codes[addr] == r.value.value
    ensures addr in o.codes ==> r == Ok(Read(o, o.codes[addr]))
    ensures addr !in o.codes ==>
      (r.Ok? <==> CodeEntry(b.versions, b.codeHashes, b.codes, addr).Ok?)
      && (r.Ok? ==> var e := CodeEntry(b.versions, b.codeHashes, b.codes, addr).value;
                    r.value.value == OverlayCode(e.2, ZERO_ADDRESS, e.0, e.1))
  {
    if addr in o.codes then Ok(Read(o, o.codes[addr]))
    else match CodeEntry(b.versions, b.codeHashes, b.codes, addr)
      case Fail(m) => Fail(m)
      case Ok(e) =>
        var val := OverlayCode(e.2, ZERO_ADDRESS, e.0, e.1);
        Ok(Read(o.(codes := o.codes[addr := val]), val))
  }

  /** `SetCode`: the code with its SHA-256 code hash, marked updated and created. */
  function WriteCode(o: Overlay, p: Prims, addr: Address, codeAddr: Address, val: seq<DEPByte>, valBytes: seq<Byte>,
                   initcodeHash: Hash): (r: Overlay)
    ensures r.updatedCodes == o.updatedCodes + {addr} && r.created == o.created + {addr}
    ensures addr in r.codes && r.codes[addr] == OverlayCode(val, codeAddr, p.sha256(valBytes), initcodeHash)
  {
    o.(codes := o.codes[addr := OverlayCode(val, codeAddr, p.sha256(valBytes), initcodeHash)],
       updatedCodes := o.updatedCodes + {addr}, created := o.created + {addr})
  }

  function Destructed(o: Overlay, addr: Address): (r: Overlay)
    ensures r.selfdestructed == o.selfdestructed + {addr} && r.created == o.created
  {
    o.(selfdestructed := o.selfdestructed + {addr})
  }

  /** `Created`: whether the overlay has set code at the address. */
  predicate IsCreated(o: Overlay, addr: Address)
  {
    addr in o.created
  }

  // ---- what the operations promise together ----

  /** A second read of a version, slot or code is served from the overlay, whatever the store then holds. */
  lemma ReadsCached(o: Overlay, p: Prims, b: Base, b2: Base, addr: Address, slot: Word)
    requires |b.codes| < U64_LIMIT && |b2.codes| < U64_LIMIT
    ensures var r := ReadVersion(o, b, addr);
      r.Ok? ==> ReadVersion(r.value.o, b2, addr) == Ok(Read(r.value.o, r.value.value))
    ensures var r := ReadSlot(o, p, b, addr, slot);
      r.Ok? ==> ReadSlot(r.value.o, p, b2, addr, slot) == Ok(Read(r.value.o, r.value.value))
    ensures var r := ReadCode(o, b, addr);
      r.Ok? ==> ReadCode(r.value.o, b2, addr) == Ok(Read(r.value.o, r.value.value))
  {
  }

  /** A slot read after `SetSlot` gives the value written and its code address; a read never marks a slot updated. */
  lemma SlotSetThenGet(o: Overlay, p: Prims, b: Base, addr: Address, codeAddr: Address, slot: Word, val: seq<DEPByte>)
    ensures ReadSlot(WriteSlot(o, addr, codeAddr, slot, val), p, b, addr, slot).Ok?
    ensures ReadSlot(WriteSlot(o, addr, codeAddr, slot, val), p, b, addr, slot).value.value == OverlaySlot(val, codeAddr)
    ensures SlotKey(addr, slot) in WriteSlot(o, addr, codeAddr, slot, val).updatedSlots
    ensures var r := ReadSlot(o, p, b, addr, slot); r.Ok? ==> r.value.o.updatedSlots == o.updatedSlots
  {
  }

  /** An unset transient slot reads as 32 init-zero bytes; after `SetTransient` it reads as the value set. */
  lemma TransientSetThenGet(o: Overlay, p: Prims, addr: Address, slot: Word, val: seq<DEPByte>)
    requires o.transient.Some? && SlotKey(addr, slot) !in o.transient.value
    ensures ReadTransient(o, p, addr, slot) == Ok(Read(o.(transient := Some(o.transient.value[SlotKey(addr, slot) := InitBytes(p, 32)])), InitBytes(p, 32)))
    ensures WriteTransient(o, addr, slot, val).Ok?
    ensures ReadTransient(WriteTransient(o, addr, slot, val).value, p, addr, slot).Ok?
    ensures ReadTransient(WriteTransient(o, addr, slot, val).value, p, addr, slot).value.value == val
  {
  }

  /** A new overlay has no transient map, so its first transient access panics; a copy has one. */
  lemma NewOverlayTransient(p: Prims, addr: Address, slot: Word)
    ensures ReadTransient(OverlayNew(), p, addr, slot).Fail?
    ensures ReadTransient(OverlayCopy(OverlayNew()), p, addr, slot) ==
      Ok(Read(OverlayCopy(OverlayNew()).(transient := Some(map[SlotKey(addr, slot) := InitBytes(p, 32)])), InitBytes(p, 32)))
  {
  }

  /** An address counts as created exactly when the overlay has set code at it: no other operation changes `created`. */
  lemma CreatedOnlyBySetCode(o: Overlay, p: Prims, addr: Address, a: Address, codeAddr: Address, slot: Word,
                             val: seq<DEPByte>, valBytes: seq<Byte>, initcodeHash: Hash)
    ensures IsCreated(WriteCode(o, p, addr, codeAddr, val, valBytes, initcodeHash), a) <==> IsCreated(o, a) || a == addr
    ensures IsCreated(WriteSlot(o, addr, codeAddr, slot, val), a) == IsCreated(o, a)
    ensures IsCreated(Destructed(o, addr), a) == IsCreated(o, a)
    ensures WriteTransient(o, addr, slot, val).Ok? ==> IsCreated(WriteTransient(o, addr, slot, val).value, a) == IsCreated(o, a)
    ensures IsCreated(OverlayCopy(o), a) == IsCreated(o, a)
    ensures !IsCreated(OverlayNew(), a)
  {
  }

  // ---- the object ----

  class OverlayDB {
    const simpleDB: SimpleDB
    var slots: map<SlotKey, OverlaySlot>
    var updatedSlots: set<SlotKey>
    var codes: map<Address, OverlayCode>
    var updatedCodes: set<Address>
    var selfdestructed: set<Address>
    var created: set<Address>
    var versions: map<Address, U64>
    var transient: Option<map<SlotKey, seq<DEPByte>>>

    function Value(): Overlay
      reads this
    {
      Overlay(slots, updatedSlots, codes, updatedCodes, selfdestructed, created, versions, transient)
    }

    function BaseOf(): Base
      reads simpleDB
    {
      Base(simpleDB.versionsDB, simpleDB.slotsDB, simpleDB.codeHashesDB, simpleDB.codesDB)
    }

    /** `OverlayDBNew`. */
    constructor (simpleDB: SimpleDB)
      ensures this.simpleDB == simpleDB && Value() == OverlayNew()
    {
      this.simpleDB := simpleDB;
      slots, updatedSlots, codes, updatedCodes := map[], {}, map[], {};
      selfdestructed, created, versions, transient := {}, {}, map[], None;
    }

    method Copy() returns (res: OverlayDB)
      ensures fresh(res) && res.simpleDB == simpleDB && res.Value() == OverlayCopy(Value())
    {
      res := new OverlayDB(simpleDB);
      res.slots, res.updatedSlots, res.codes, res.updatedCodes := slots, updatedSlots, codes, updatedCodes;
      res.selfdestructed, res.created, res.versions := selfdestructed, created, versions;
      res.transient := Some(if transient.Some? then transient.value else map[]);
    }

    method GetAddressVersion(addr: Address) returns (r: Result<U64>)
      modifies this`versions
      ensures var s := ReadVersion(old(Value()), BaseOf(), addr);
        (r.Ok? <==> s.Ok?) && (r.Ok? ==> r.value == s.value.value && Value() == s.value.o)
    {
      if addr in versions {
        return Ok(versions[addr]);
      }
      var val := simpleDB.GetAddressVersion(addr);
      if val.Fail? {
        return val;
      }
      versions := versions[addr := val.value];
      r := val;
    }

    method GetSlot(addr: Address, slot: Word) returns (r: Result<OverlaySlot>)
      modifies this`slots
      ensures var s := ReadSlot(old(Value()), simpleDB.p, BaseOf(), addr, slot);
        (r.Ok? <==> s.Ok?) && (r.Ok? ==> r.value == s.value.value && Value() == s.value.o)
    {
      var key := SlotKey(addr, slot);
      if key in slots {
        return Ok(slots[key]);
      }
      var data := simpleDB.GetSlot(addr, slot);
      if data.Fail? {
        return Fail(data.msg);
      }
      var val := OverlaySlot(data.value, ZERO_ADDRESS);
      slots := slots[key := val];
      r := Ok(val);
    }

    method SetSlot(addr: Address, codeAddr: Address, slot: Word, val: seq<DEPByte>)
      modifies this`slots, this`updatedSlots
      ensures Value() == WriteSlot(old(Value()), addr, codeAddr, slot, val)
    {
      var key := SlotKey(addr, slot);
      slots := slots[key := OverlaySlot(val, codeAddr)];
      updatedSlots := updatedSlots + {key};
    }

    method GetTransient(addr: Address, slot: Word) returns (r: Result<seq<DEPByte>>)
      modifies this`transient
      ensures var s := ReadTransient(old(Value()), simpleDB.p, addr, slot);
        (r.Ok? <==> s.Ok?) && (r.Ok? ==> r.value == s.value.value && Value() == s.value.o)
    {
      var key := SlotKey(addr, slot);
      if transient.None? {
        return Fail("assignment to entry in nil map");
      }
      if key in transient.value {
        return Ok(transient.value[key]);
      }
      var val: seq<DEPByte> := [];
      for i := 0 to 32
        invariant val == InitBytes(simpleDB.p, i)
      {
        val := val + [InitZero(simpleDB.p)];
      }
      transient := Some(transient.value[key := val]);
      r := Ok(val);
    }

    method SetTransient(addr: Address, slot: Word, val: seq<DEPByte>) returns (ok: bool)
      modifies this`transient
      ensures var s := WriteTransient(old(Value()), addr, slot, val);
        (ok <==> s.Ok?) && (ok ==> Value() == s.value)
    {
      if transient.None? {
        return false;
      }
      transient := Some(transient.value[SlotKey(addr, slot) := val]);
      ok := true;
    }

    method GetCode(addr: Address) returns (r: Result<OverlayCode>)
      requires |simpleDB.codesDB| < U64_LIMIT
      modifies this`codes
      ensures var s := ReadCode(old(Value()), BaseOf(), addr);
        (r.Ok? <==> s.Ok?) && (r.Ok? ==> r.value == s.value.value && Value() == s.value.o)
    {
      if addr in codes {
        return Ok(codes[addr]);
      }
      var e := simpleDB.GetCode(addr);
      if e.Fail? {
        return Fail(e.msg);
      }
      var val := OverlayCode(e.value.2, ZERO_ADDRESS, e.value.0, e.value.1);
      codes := codes[addr := val];
      r := Ok(val);
    }

    method SetCode(addr: Address, codeAddr: Address, val: seq<DEPByte>, valBytes: seq<Byte>, initcodeHash: Hash)
      modifies this`codes, this`updatedCodes, this`created
      ensures Value() == WriteCode(old(Value()), simpleDB.p, addr, codeAddr, val, valBytes, initcodeHash)
    {
      codes := codes[addr := OverlayCode(val, codeAddr, simpleDB.p.sha256(valBytes), initcodeHash)];
      updatedCodes := updatedCodes + {addr};
      created := created + {addr};
    }

    method Destruct(addr: Address)
      modifies this`selfdestructed
      ensures Value() == Destructed(old(Value()), addr)
    {
      selfdestructed := selfdestructed + {addr};
    }

    method Created(addr: Address) returns (b: bool)
      ensures b == IsCreated(Value(), addr)
    {
      b := addr in created;
    }

    /** `Commit`; the versions it reads on the way are cached like any other read. */
    method Commit() returns (ok: bool)
      requires simpleDB.Valid()
      modifies this`versions
      modifies simpleDB`formulasWithShorts, simpleDB`formulas, simpleDB`formulasDB, simpleDB.shorts, simpleDB.logger`written
      modifies simpleDB`slotsDB, simpleDB`codesDB, simpleDB`codeHashesDB, simpleDB`versionsDB
      ensures simpleDB.Valid()
      ensures Committed(old(Value()), simpleDB.p, old(BaseOf()), BaseOf(), ok)
      ensures Value() == old(Value()).(versions := versions)
    {
      var cur;
      ok, cur := CommitOverlay(Value(), simpleDB);
      versions := cur.versions;
    }
  }

  // ---- committing ----

  /** The data `Commit` writes for an updated slot; Go's zero value for a key with no entry. */
  function SlotData(o: Overlay, k: SlotKey): seq<DEPByte>
  {
    if k in o.slots then o.slots[k].data else []
  }

  /**
   * What `Commit` does to the stores from `b0` to `b1`: only slots and code
   * the overlay updated change, and once it completes every updated slot
   * reads back (at the versions it started from) and every destructed
   * account's version has gone up by one.
   */
  ghost predicate Committed(o: Overlay, p: Prims, b0: Base, b1: Base, ok: bool)
  {
    && SlotsAgreeOutside(b0.slots, b1.slots, o.updatedSlots)
    && CodesAgreeOutside(b0.codes, b1.codes, o.updatedCodes)
    && CodesAgreeOutside(b0.codeHashes, b1.codeHashes, o.updatedCodes)
    && (ok ==> forall k :: k in o.updatedSlots ==> SlotEntry(p, b0.versions, b1.slots, k.addr, k.slot) == Ok(SlotData(o, k)))
    && (ok ==> Bumped(b0.versions, b1.versions, o.selfdestructed))
  }

  /** `Commit`: the updated slots, then the updated code, then the destructed accounts' versions. */
  method CommitOverlay(o: Overlay, db: SimpleDB) returns (ok: bool, cur: Overlay)
    requires db.Valid()
    modifies db`formulasWithShorts, db`formulas, db`formulasDB, db.shorts, db.logger`written
    modifies db`slotsDB, db`codesDB, db`codeHashesDB, db`versionsDB
    ensures db.Valid()
    ensures Committed(o, db.p, old(Base(db.versionsDB, db.slotsDB, db.codeHashesDB, db.codesDB)),
                      Base(db.versionsDB, db.slotsDB, db.codeHashesDB, db.codesDB), ok)
    ensures cur == o.(versions := cur.versions)
  {
    ok, cur := CommitSlots(o, o, db);
    if !ok {
      CodesAgreeWiden(db.codesDB, db.codesDB, {}, o.updatedCodes);
      CodesAgreeWiden(db.codeHashesDB, db.codeHashesDB, {}, o.updatedCodes);
      return;
    }
    ok, cur := CommitCodes(o, cur, db);
    if !ok {
      return;
    }
    ok := BumpVersions(o.selfdestructed, db);
  }

  /** The first loop of `Commit`, over the updated slots in any order. */
  method CommitSlots(o: Overlay, cur0: Overlay, db: SimpleDB) returns (ok: bool, cur: Overlay)
    requires db.Valid()
    modifies db`formulasWithShorts, db`formulas, db`formulasDB, db.shorts, db.logger`written, db`slotsDB
    ensures db.Valid()
    ensures cur == cur0.(versions := cur.versions)
    ensures SlotsAgreeOutside(old(db.slotsDB), db.slotsDB, o.updatedSlots)
    ensures ok ==> forall k :: k in o.updatedSlots ==>
      SlotEntry(db.p, db.versionsDB, db.slotsDB, k.addr, k.slot) == Ok(SlotData(o, k))
  {
    cur := cur0;
    var todo := o.updatedSlots;
    ghost var done: set<SlotKey> := {};
    while todo != {}
      invariant todo + done == o.updatedSlots && todo !! done
      invariant db.Valid()
      invariant cur == cur0.(versions := cur.versions)
      invariant SlotsCommitted(o, db.p, db.versionsDB, old(db.slotsDB), db.slotsDB, done)
      decreases |todo|
    {
      ok, cur, todo, done := CommitNextSlot(o, cur, db, todo, old(db.slotsDB), done);
      if !ok {
        return;
      }
    }
    ok := true;
  }

  /** One turn of the first loop: some slot still to do is committed and moves to the done ones. */
  method CommitNextSlot(o: Overlay, cur0: Overlay, db: SimpleDB, todo0: set<SlotKey>, ghost s0: KV, ghost done0: set<SlotKey>)
    returns (ok: bool, cur: Overlay, todo: set<SlotKey>, ghost done: set<SlotKey>)
    requires todo0 != {} && todo0 + done0 == o.updatedSlots && todo0 !! done0
    requires db.Valid() && SlotsCommitted(o, db.p, db.versionsDB, s0, db.slotsDB, done0)
    modifies db`formulasWithShorts, db`formulas, db`formulasDB, db.shorts, db.logger`written, db`slotsDB
    ensures db.Valid() && cur == cur0.(versions := cur.versions)
    ensures todo + done == o.updatedSlots && todo !! done && |todo| < |todo0|
    ensures SlotsAgreeOutside(s0, db.slotsDB, o.updatedSlots)
    ensures ok ==> SlotsCommitted(o, db.p, db.versionsDB, s0, db.slotsDB, done)
  {
    var k :| k in todo0;
    ok, cur := CommitSlot(o, cur0, db, k, s0, done0);
    todo, done := todo0 - {k}, done0 + {k};
    SlotsAgreeWiden(s0, db.slotsDB, done, o.updatedSlots);
  }

  ghost predicate SlotsCommitted(o: Overlay, p: Prims, versions: KV, s0: KV, s1: KV, done: set<SlotKey>)
  {
    && SlotsAgreeOutside(s0, s1, done)
    && forall k :: k in done ==> SlotEntry(p, versions, s1, k.addr, k.slot) == Ok(SlotData(o, k))
  }

  /** Storing one more updated slot keeps the slots stored so far and adds it. */
  lemma SlotsCommittedStep(o: Overlay, p: Prims, versions: KV, s0: KV, s1: KV, s2: KV, done: set<SlotKey>, k: SlotKey)
    requires SlotsCommitted(o, p, versions, s0, s1, done) && k !in done
    requires SlotStored(versions, s1, k.addr, k.slot, SlotData(o, k)) == Ok(s2)
    requires SlotEntry(p, versions, s2, k.addr, k.slot) == Ok(SlotData(o, k))
    ensures SlotsCommitted(o, p, versions, s0, s2, done + {k})
  {
    SlotStoredOutside(versions, s1, k.addr, k.slot, SlotData(o, k));
    SlotsAgreeTrans(s0, s1, s2, done, {k}, done + {k});
    forall j | j in done
      ensures SlotEntry(p, versions, s2, j.addr, j.slot) == Ok(SlotData(o, j))
    {
      SlotEntryAgree(p, versions, s1, s2, {k}, j.addr, j.slot);
    }
  }

  /** One updated slot: its formulas committed, its bytes stored, its final value logged. */
  method CommitSlot(o: Overlay, cur0: Overlay, db: SimpleDB, k: SlotKey, ghost s0: KV, ghost done: set<SlotKey>)
    returns (ok: bool, cur: Overlay)
    requires db.Valid() && k !in done
    requires SlotsCommitted(o, db.p, db.versionsDB, s0, db.slotsDB, done)
    modifies db`formulasWithShorts, db`formulas, db`formulasDB, db.shorts, db.logger`written, db`slotsDB
    ensures db.Valid()
    ensures cur == cur0.(versions := cur.versions)
    ensures SlotsAgreeOutside(s0, db.slotsDB, done + {k})
    ensures ok ==> SlotsCommitted(o, db.p, db.versionsDB, s0, db.slotsDB, done + {k})
  {
    cur := cur0;
    var value := if k in o.slots then o.slots[k] else OverlaySlot([], ZERO_ADDRESS);
    ok := StoreSlot(o, db, k, value.data, s0, done);
    if !ok {
      return;
    }
    ok, cur := LogFinal(cur, db, FinalSlot, k.addr, value.codeAddr, value.data);
  }

  /** The formulas of one slot committed and its bytes stored. */
  method StoreSlot(o: Overlay, db: SimpleDB, k: SlotKey, data: seq<DEPByte>, ghost s0: KV, ghost done: set<SlotKey>)
    returns (ok: bool)
    requires db.Valid() && k !in done && data == SlotData(o, k)
    requires SlotsCommitted(o, db.p, db.versionsDB, s0, db.slotsDB, done)
    modifies db`formulasWithShorts, db`formulas, db`formulasDB, db.shorts, db`slotsDB
    ensures db.Valid()
    ensures SlotsAgreeOutside(s0, db.slotsDB, done + {k})
    ensures ok ==> SlotsCommitted(o, db.p, db.versionsDB, s0, db.slotsDB, done + {k})
  {
    ghost var s1 := db.slotsDB;
    var committed := db.CommitDEPBytesWithShorts(data);
    if !committed {
      SlotsAgreeWiden(s0, db.slotsDB, done, done + {k});
      return false;
    }
    ok := db.SetSlot(k.addr, k.slot, data);
    if !ok {
      SlotsAgreeWiden(s0, db.slotsDB, done, done + {k});
      return;
    }
    SlotsCommittedStep(o, db.p, db.versionsDB, s0, s1, db.slotsDB, done, k);
  }

  /**
   * The final-slot or final-code event of `Commit`, at the address's
   * version as the overlay reads it (and caches it).
   */
  method LogFinal(cur0: Overlay, db: SimpleDB, e: ValueEvent, addr: Address, codeAddr: Address, data: seq<DEPByte>)
    returns (ok: bool, cur: Overlay)
    requires db.Valid() && (e == FinalSlot || e == FinalCode)
    modifies db`formulasWithShorts, db`formulas, db.shorts, db.logger`written
    ensures db.Valid()
    ensures cur == cur0.(versions := cur.versions)
  {
    cur := cur0;
    var version := ReadVersion(cur, Base(db.versionsDB, db.slotsDB, db.codeHashesDB, db.codesDB), addr);
    if version.Fail? {
      return false, cur;
    }
    cur := version.value.o;
    if e == FinalSlot {
      var logged, f, outputs, view, sfs := SolViews.LogFinalSlot(db, addr, version.value.value, codeAddr, data);
      ok := logged;
    } else {
      var logged, f, outputs, before, sfs := db.LogValue(FinalCode, addr, version.value.value, codeAddr, data);
      ok := logged;
    }
  }

  /** The second loop of `Commit`, over the updated code in any order. */
  method CommitCodes(o: Overlay, cur0: Overlay, db: SimpleDB) returns (ok: bool, cur: Overlay)
    requires db.Valid()
    modifies db`formulasWithShorts, db`formulas, db`formulasDB, db.shorts, db.logger`written, db`codesDB, db`codeHashesDB
    ensures db.Valid()
    ensures cur == cur0.(versions := cur.versions)
    ensures CodesAgreeOutside(old(db.codesDB), db.codesDB, o.updatedCodes)
    ensures CodesAgreeOutside(old(db.codeHashesDB), db.codeHashesDB, o.updatedCodes)
  {
    cur := cur0;
    var todo := o.updatedCodes;
    ghost var done: set<Address> := {};
    while todo != {}
      invariant todo + done == o.updatedCodes && todo !! done
      invariant db.Valid()
      invariant cur == cur0.(versions := cur.versions)
      invariant CodesAgreeOutside(old(db.codesDB), db.codesDB, done)
      invariant CodesAgreeOutside(old(db.codeHashesDB), db.codeHashesDB, done)
      decreases |todo|
    {
      var a :| a in todo;
      ok, cur := CommitCode(o, cur, db, a, old(db.codesDB), old(db.codeHashesDB), done);
      if !ok {
        CodesAgreeWiden(old(db.codesDB), db.codesDB, done + {a}, o.updatedCodes);
        CodesAgreeWiden(old(db.codeHashesDB), db.codeHashesDB, done + {a}, o.updatedCodes);
        return;
      }
      todo := todo - {a};
      done := done + {a};
    }
    ok := true;
  }

  /** One updated account's code: its formulas committed, the code and hashes stored, the final code logged. */
  method CommitCode(o: Overlay, cur0: Overlay, db: SimpleDB, a: Address, ghost c0: KV, ghost h0: KV, ghost done: set<Address>)
    returns (ok: bool, cur: Overlay)
    requires db.Valid()
    requires CodesAgreeOutside(c0, db.codesDB, done) && CodesAgreeOutside(h0, db.codeHashesDB, done)
    modifies db`formulasWithShorts, db`formulas, db`formulasDB, db.shorts, db.logger`written, db`codesDB, db`codeHashesDB
    ensures db.Valid()
    ensures cur == cur0.(versions := cur.versions)
    ensures CodesAgreeOutside(c0, db.codesDB, done + {a}) && CodesAgreeOutside(h0, db.codeHashesDB, done + {a})
  {
    cur := cur0;
    var code := if a in o.codes then o.codes[a] else OverlayCode([], ZERO_ADDRESS, ZERO_HASH, ZERO_HASH);
    ok := StoreCode(db, a, code, c0, h0, done);
    if !ok {
      return;
    }
    ok, cur := LogFinal(cur, db, FinalCode, a, code.codeAddr, code.data);
  }

  /** The formulas of one account's code committed, and the code and its hashes stored. */
  method StoreCode(db: SimpleDB, a: Address, code: OverlayCode, ghost c0: KV, ghost h0: KV, ghost done: set<Address>)
    returns (ok: bool)
    requires db.Valid()
    requires CodesAgreeOutside(c0, db.codesDB, done) && CodesAgreeOutside(h0, db.codeHashesDB, done)
    modifies db`formulasWithShorts, db`formulas, db`formulasDB, db.shorts, db`codesDB, db`codeHashesDB
    ensures db.Valid()
    ensures CodesAgreeOutside(c0, db.codesDB, done + {a}) && CodesAgreeOutside(h0, db.codeHashesDB, done + {a})
  {
    ghost var c1, h1 := db.codesDB, db.codeHashesDB;
    var committed := db.CommitDEPBytesWithShorts(code.data);
    if committed {
      ok := db.SetCode(a, code.data, code.codeHash, code.initcodeHash);
      if ok {
        CodeStoredOutside(db.versionsDB, h1, c1, a, code.data, code.codeHash, code.initcodeHash);
      }
    }
    CodesAgreeTrans(c0, c1, db.codesDB, done, {a}, done + {a});
    CodesAgreeTrans(h0, h1, db.codeHashesDB, done, {a}, done + {a});
    ok := committed && ok;
  }

  /** The third loop of `Commit`: `IncreaseAddressVersion` once per destructed account, in any order. */
  method BumpVersions(addrs: set<Address>, db: SimpleDB) returns (ok: bool)
    modifies db`versionsDB
    ensures ok ==> Bumped(old(db.versionsDB), db.versionsDB, addrs)
  {
    var todo := addrs;
    ghost var done: set<Address> := {};
    while todo != {}
      invariant todo + done == addrs && todo !! done
      invariant Bumped(old(db.versionsDB), db.versionsDB, done)
      decreases |todo|
    {
      var a :| a in todo;
      ok := BumpVersion(db, a, old(db.versionsDB), done);
      if !ok {
        return;
      }
      todo := todo - {a};
      done := done + {a};
    }
    ok := true;
  }

  /** One destructed account's `IncreaseAddressVersion`. */
  method BumpVersion(db: SimpleDB, a: Address, ghost v0: KV, ghost done: set<Address>) returns (ok: bool)
    requires Bumped(v0, db.versionsDB, done) && a !in done
    modifies db`versionsDB
    ensures ok ==> Bumped(v0, db.versionsDB, done + {a})
  {
    ghost var v1 := db.versionsDB;
    var r := db.IncreaseAddressVersion(a);
    if r.Fail? {
      return false;
    }
    BumpedStep(v0, v1, done, a);
    ok := true;
  }
}
