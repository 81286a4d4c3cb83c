// The C side of the cgo library (tracer/libdep.go, tracer/dep_tracer/c_api.go):
// the structs the C caller passes by value, the copies between them and the Go
// values, and the function pointers the caller registers for the state
// database.  Both files declare the same structs and copy them the same way.
module CTypes {
  import opened Common

  const INT32_MIN: int := -0x8000_0000
  const INT32_MAX: int := 0x7fff_ffff

  /** `Address { uint8_t data[20]; }` */
  datatype CAddress = CAddress(data: Address)

  /** `Hash { uint8_t data[32]; }` */
  datatype CHash = CHash(data: Hash)

  /** `SizedArray { uint8_t *data; int size; }`: `data` holds the bytes readable at the pointer. */
  datatype SizedArray = SizedArray(data: seq<Byte>, size: int)

  /** A C int size, and at least `size` bytes behind the pointer (the caller's promise). */
  type CSizedArray = a: SizedArray | INT32_MIN <= a.size <= INT32_MAX && a.size <= |a.data|
    witness SizedArray([], 0)

  /** `Stack { Hash *data; int size; }`: `data` holds the hashes readable at the pointer. */
  datatype Stack = Stack(data: seq<CHash>, size: int)

  type CStack = s: Stack | INT32_MIN <= s.size <= INT32_MAX && s.size <= |s.data|
    witness Stack([], 0)

  /** A C function pointer (its address); an unregistered one is `None`, the Go `nil`. */
  type FnPointer = nat

  /**
   * The C program on the other side: what the function at a pointer returns
   * when it is called as a `get_nonce_function` or as a `get_code_function`.
   */
  datatype Host = Host(nonce: FnPointer -> CAddress -> U64, code: FnPointer -> CAddress -> CSizedArray)

  /** `packAddress`: the 20 bytes, in order, into the C struct. */
  method PackAddress(addr: Address) returns (r: CAddress)
    ensures r.data == addr
  {
    var data: seq<Byte> := Zeros(20);
    var i := 0;
    while i < 20
      invariant 0 <= i <= 20 && |data| == 20
      invariant forall j :: 0 <= j < i ==> data[j] == addr[j]
    {
      data := data[i := addr[i]];
      i := i + 1;
    }
    r := CAddress(data);
  }

  /** `unpackAddress`: the 20 bytes of the C struct, in order. */
  method UnpackAddress(addr: CAddress) returns (r: Address)
    ensures r == addr.data
  {
    var res: seq<Byte> := Zeros(20);
    var i := 0;
    while i < 20
      invariant 0 <= i <= 20 && |res| == 20
      invariant forall j :: 0 <= j < i ==> res[j] == addr.data[j]
    {
      res := res[i := addr.data[i]];
      i := i + 1;
    }
    r := res;
  }

  /** `packHash`: the 32 bytes, in order, into the C struct. */
  method PackHash(hash: Hash) returns (r: CHash)
    ensures r.data == hash
  {
    var data: seq<Byte> := Zeros(32);
    var i := 0;
    while i < 32
      invariant 0 <= i <= 32 && |data| == 32
      invariant forall j :: 0 <= j < i ==> data[j] == hash[j]
    {
      data := data[i := hash[i]];
      i := i + 1;
    }
    r := CHash(data);
  }

  /** `unpackHash`: the 32 bytes of the C struct, in order. */
  method UnpackHash(hash: CHash) returns (r: Hash)
    ensures r == hash.data
  {
    var res: seq<Byte> := Zeros(32);
    var i := 0;
    while i < 32
      invariant 0 <= i <= 32 && |res| == 32
      invariant forall j :: 0 <= j < i ==> res[j] == hash.data[j]
    {
      res := res[i := hash.data[i]];
      i := i + 1;
    }
    r := res;
  }

  /** An address passed to C and read back is the same address. */
  method AddressRoundTrip(addr: Address) returns (back: Address)
    ensures back == addr
  {
    var c := PackAddress(addr);
    back := UnpackAddress(c);
  }

  /** A hash passed to C and read back is the same hash. */
  method HashRoundTrip(hash: Hash) returns (back: Hash)
    ensures back == hash
  {
    var c := PackHash(hash);
    back := UnpackHash(c);
  }

  /**
   * `C.GoBytes(data, size)`: a Go copy of the first `size` bytes; the Go
   * runtime panics on a negative length.
   */
  function UnpackSizedArray(a: CSizedArray): (r: Result<seq<Byte>>)
    ensures r.Ok? <==> a.size >= 0
    ensures r.Ok? ==> |r.value| == a.size && r.value <= a.data
  {
    if a.size < 0 then Fail("gobytes: length out of range") else Ok(a.data[..a.size])
  }

  /** `SetBytes32`: the 256-bit word whose big-endian bytes are `h`. */
  function WordOf(h: Hash): (r: Word)
    ensures Bytes32(r) == h
  {
    Pow256Facts();
    BEOfFromBE(h);
    FromBE(h)
  }

  /** How many words `unpackStack` reads: `size`, none when it is not positive. */
  function Count(s: CStack): nat
  {
    if s.size < 0 then 0 else s.size
  }

  /** The stack as Go words, bottom first: word `i` is hash `i` read big-endian. */
  function Words(s: CStack): (r: seq<Word>)
    ensures |r| == Count(s)
    ensures forall i :: 0 <= i < |r| ==> Bytes32(r[i]) == s.data[i].data
  {
    seq(Count(s), i requires 0 <= i < Count(s) => WordOf(s.data[i].data))
  }

  /** `unpackStack`: one word per hash, in the order of the C array. */
  method UnpackStack(s: CStack) returns (r: seq<Word>)
    ensures r == Words(s)
  {
    var res: seq<Word> := [];
    var i := 0;
    while i < s.size
      invariant 0 <= i <= Count(s) && |res| == i
      invariant forall j :: 0 <= j < i ==> res[j] == WordOf(s.data[j].data)
    {
      var h := UnpackHash(s.data[i]);
      res := res + [WordOf(h)];
      i := i + 1;
    }
    r := res;
  }

  /** The nonce the registered callback reports for `addr`, with the address packed for C. */
  function NonceVia(host: Host, pointer: Option<FnPointer>, addr: Address): (r: Result<U64>)
    ensures r.Ok? <==> pointer.Some?
    ensures r.Ok? ==> r.value == host.nonce(pointer.value)(CAddress(addr))
  {
    if pointer.None? then Fail("nil function pointer") else Ok(host.nonce(pointer.value)(CAddress(addr)))
  }

  /** The code the callback at `pointer`, called as a `get_code_function`, returns for `addr`. */
  function CodeVia(host: Host, pointer: Option<FnPointer>, addr: Address): (r: Result<seq<Byte>>)
    ensures r.Ok? <==> pointer.Some? && host.code(pointer.value)(CAddress(addr)).size >= 0
    ensures r.Ok? ==> r.value <= host.code(pointer.value)(CAddress(addr)).data
  {
    if pointer.None? then Fail("nil function pointer") else UnpackSizedArray(host.code(pointer.value)(CAddress(addr)))
  }

  /**
   * The nonce lookup the DepHandler is given: `StateDBC.GetNonce` through
   * the callback registered when the transaction starts.  The model fixes
   * the pointer when the lookup is made; `StateDBC.GetNonce` itself reads
   * the global `getNoncePointer` on every call, so a `RegisterGetNonce`
   * during a transaction would change its answers, and this lookup does
   * not follow such a change.
   */
  function NonceOf(host: Host, pointer: Option<FnPointer>): (f: Address -> U64)
    ensures forall addr :: NonceVia(host, pointer, addr).Ok? ==> f(addr) == NonceVia(host, pointer, addr).value
  {
    var nonce: FnPointer -> CAddress -> U64 := host.nonce;
    (addr: Address) => if pointer.None? then 0 as U64 else nonce(pointer.value)(CAddress(addr))
  }
}
