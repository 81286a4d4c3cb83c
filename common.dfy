// Shared vocabulary of the model: bytes, 64- and 256-bit unsigned integers,
// 20-byte addresses, 32-byte hashes, the big-endian codec every byte layout of
// the tracer uses, and the Option/Result wrappers.  A `Fail` result stands for
// a Go `panic` or a Rust `panic!`/`unwrap` on an error: the process aborts.
module Common {

  type Byte = b: int | 0 <= b < 256

  const U64_LIMIT: int := 0x1_0000_0000_0000_0000
  const U64_MAX: int := U64_LIMIT - 1
  type U64 = x: int | 0 <= x < U64_LIMIT

  /** `uint64` addition, wrapping past `0xffffffffffffffff`. */
  function Add64(a: U64, b: U64): U64
  {
    if a + b < U64_LIMIT then a + b else a + b - U64_LIMIT
  }

  /** `uint64` subtraction, wrapping below zero. */
  function Sub64(a: U64, b: U64): U64
  {
    if a >= b then a - b else a - b + U64_LIMIT
  }

  const WORD_LIMIT: int := 0x1_0000_0000_0000_0000_0000_0000_0000_0000_0000_0000_0000_0000_0000_0000_0000_0000
  /** A 256-bit EVM stack word (uint256.Int / revm U256). */
  type Word = x: int | 0 <= x < WORD_LIMIT

  type Hash = s: seq<Byte> | |s| == 32 witness seq(32, _ => 0)
  type Address = s: seq<Byte> | |s| == 20 witness seq(20, _ => 0)

  /** A hash function such as SHA-256 or Keccak-256; the model never fixes one. */
  type Hasher = seq<Byte> -> Hash

  /**
   * The functions the tracer calls but the model leaves open: SHA-256
   * (formula and code hashes), Keccak-256 (KECCAK256, contract addresses) and
   * the opcode classifications `OpcodeIsConstant` / `OpcodeIsAddressable`,
   * whose definitions are not part of this model.
   */
  datatype Prims = Prims(
    sha256: Hasher,
    keccak: Hasher,
    isConstant: Byte -> bool,
    isAddressable: Byte -> bool)

  datatype Option<T> = None | Some(value: T)

  datatype Result<T> = Ok(value: T) | Fail(msg: string)
  {
    predicate IsFailure() { Fail? }
  }

  /** A key-value store of the `DB` interface (kvdb.go), as a map. */
  type KV = map<seq<Byte>, seq<Byte>>

  /**
   * `DB.Get(key, optional)`: the stored value, `None` for a missing optional
   * key, and a failure (Go panics "key not found") for a missing required one.
   */
  function DBGet(db: KV, key: seq<Byte>, optional: bool): (r: Result<Option<seq<Byte>>>)
    ensures key in db ==> r == Ok(Some(db[key]))
    ensures key !in db ==> (r.Fail? <==> !optional) && (optional ==> r == Ok(None))
  {
    if key in db then Ok(Some(db[key]))
    else if optional then Ok(None)
    else Fail("key not found")
  }

  function Zeros(n: nat): (r: seq<Byte>)
    ensures |r| == n && forall i :: 0 <= i < n ==> r[i] == 0
  {
    seq(n, _ => 0)
  }

  const ZERO_HASH: Hash := Zeros(32)
  const ZERO_ADDRESS: Address := Zeros(20)

  predicate AllZero(s: seq<Byte>) { forall i :: 0 <= i < |s| ==> s[i] == 0 }

  function Pow256(n: nat): (r: nat)
    ensures r >= 1
  {
    if n == 0 then 1 else 256 * Pow256(n - 1)
  }

  /** `x` as `n` big-endian bytes, keeping the low `8n` bits. */
  function BE(x: nat, n: nat): (r: seq<Byte>)
    ensures |r| == n
  {
    if n == 0 then [] else BE(x / 256, n - 1) + [x % 256]
  }

  /** The unsigned value of big-endian bytes. */
  function FromBE(s: seq<Byte>): (r: nat)
    ensures r < Pow256(|s|)
  {
    if s == [] then 0
    else
      var hi := FromBE(s[..|s| - 1]);
      assert hi * 256 + s[|s| - 1] < Pow256(|s|) by {
        assert hi <= Pow256(|s| - 1) - 1;
        assert hi * 256 <= Pow256(|s| - 1) * 256 - 256;
      }
      hi * 256 + s[|s| - 1]
  }

  lemma {:induction false} FromBEOfBE(x: nat, n: nat)
    requires x < Pow256(n)
    ensures FromBE(BE(x, n)) == x
  {
    if n > 0 {
      var s := BE(x, n);
      assert s[..n - 1] == BE(x / 256, n - 1);
      FromBEOfBE(x / 256, n - 1);
    }
  }

  lemma {:induction false} BEOfFromBE(s: seq<Byte>)
    ensures BE(FromBE(s), |s|) == s
  {
    if s != [] {
      var n := |s|;
      var prefix := s[..n - 1];
      var v := FromBE(s);
      assert v / 256 == FromBE(prefix) && v % 256 == s[n - 1];
      BEOfFromBE(prefix);
      assert s == prefix + [s[n - 1]];
    }
  }

  /** Two bytes strings of one width are equal iff their values are. */
  lemma BEInjective(x: nat, y: nat, n: nat)
    requires x < Pow256(n) && y < Pow256(n)
    requires BE(x, n) == BE(y, n)
    ensures x == y
  {
    FromBEOfBE(x, n);
    FromBEOfBE(y, n);
  }

  lemma {:induction false} Pow256Add(a: nat, b: nat)
    ensures Pow256(a + b) == Pow256(a) * Pow256(b)
  {
    if a > 0 {
      Pow256Add(a - 1, b);
    }
  }

  lemma Pow256Facts()
    ensures Pow256(8) == U64_LIMIT
    ensures Pow256(32) == WORD_LIMIT
  {
    assert Pow256(4) == 0x1_0000_0000;
    Pow256Add(4, 4);
    Pow256Add(8, 8);
    Pow256Add(16, 16);
  }

  /** Eight big-endian bytes, the `binary.BigEndian.AppendUint64` layout. */
  function BE64(x: U64): (r: seq<Byte>)
    ensures |r| == 8 && FromBE(r) == x
  {
    Pow256Facts();
    FromBEOfBE(x, 8);
    BE(x, 8)
  }

  /** A 256-bit word as 32 big-endian bytes (`Bytes32`, `to_be_bytes`). */
  function Bytes32(w: Word): Hash
  {
    BE(w, 32)
  }

  /** `Bytes32` loses nothing: reading the bytes back gives the word. */
  lemma Bytes32Decodes(w: Word)
    ensures FromBE(Bytes32(w)) == w
  {
    Pow256Facts();
    FromBEOfBE(w, 32);
  }

  /** The low 20 bytes of a word as an address (`Bytes20`, `Address::from_word`). */
  function WordToAddress(w: Word): Address
  {
    BE(w, 20)
  }

  /** The address of a word is the last 20 of its 32 big-endian bytes. */
  lemma WordToAddressIsLow(w: Word)
    ensures WordToAddress(w) == Bytes32(w)[12..]
  {
    BELowBytes(w, 32, 20);
  }

  lemma {:induction false} BELowBytes(x: nat, n: nat, k: nat)
    requires k <= n
    ensures BE(x, n)[n - k..] == BE(x, k)
  {
    if k > 0 {
      BELowBytes(x / 256, n - 1, k - 1);
      assert BE(x, n)[n - k..] == BE(x / 256, n - 1)[n - k..] + [x % 256];
    }
  }

  /** `uint256.Uint64WithOverflow` followed by a clamp to `0xffffffffffffffff`. */
  function ClampU64(w: Word): (r: U64)
    ensures w < U64_LIMIT ==> r == w
    ensures w >= U64_LIMIT ==> r == U64_MAX
  {
    if w < U64_LIMIT then w else U64_MAX
  }

  /** Go's `Uint64()` on a uint256: the low 64 bits. */
  function LowU64(w: Word): (r: U64)
    ensures w < U64_LIMIT ==> r == w
  {
    w % U64_LIMIT
  }

  /** Concatenation of 32-byte hashes, as written by the operand loops. */
  function Flatten(hs: seq<Hash>): (r: seq<Byte>)
    ensures |r| == 32 * |hs|
  {
    if hs == [] then [] else Flatten(hs[..|hs| - 1]) + hs[|hs| - 1]
  }

  lemma {:induction false} FlattenAt(hs: seq<Hash>, j: nat)
    requires j < |hs|
    ensures Flatten(hs)[32 * j..32 * j + 32] == hs[j]
  {
    var n := |hs|;
    if j < n - 1 {
      FlattenAt(hs[..n - 1], j);
      assert Flatten(hs)[..32 * (n - 1)] == Flatten(hs[..n - 1]);
    }
  }

  lemma {:induction false} FlattenAppend(hs: seq<Hash>, h: Hash)
    ensures Flatten(hs + [h]) == Flatten(hs) + h
  {
    assert (hs + [h])[..|hs|] == hs;
  }

  /** Splitting 32-byte chunks back out of a flattened hash list. */
  function Chunks(s: seq<Byte>, m: nat): (r: seq<Hash>)
    requires |s| >= 32 * m
    ensures |r| == m
  {
    seq(m, j requires 0 <= j < m => s[32 * j..32 * j + 32])
  }

  lemma ChunksOfFlatten(hs: seq<Hash>)
    ensures Chunks(Flatten(hs), |hs|) == hs
  {
    forall j | 0 <= j < |hs| ensures Chunks(Flatten(hs), |hs|)[j] == hs[j] {
      FlattenAt(hs, j);
    }
  }
}
