// Contract addresses (tracer/dep_tracer/crypto_helpers.go): the RLP encoding
// of `[creator, nonce]` that CREATE addresses are hashed from (Ethereum Yellow
// Paper, Appendix B), the CREATE2 preimage of EIP-1014, and the conversion of
// a Keccak digest to an address.
module CryptoHelpers {
  import opened Common

  /** Big-endian bytes with every leading zero byte removed. */
  function Trimmed(s: seq<Byte>): (r: seq<Byte>)
    ensures |r| <= |s|
    ensures r == [] || r[0] != 0
  {
    if |s| > 0 && s[0] == 0 then Trimmed(s[1..]) else s
  }

  /** Leading zero bytes do not change a big-endian value. */
  lemma {:induction false} FromBELeadingZero(s: seq<Byte>)
    ensures FromBE([0] + s) == FromBE(s)
  {
    if s != [] {
      var n := |s|;
      assert ([0] + s)[..n] == [0] + s[..n - 1];
      FromBELeadingZero(s[..n - 1]);
    }
  }

  lemma {:induction false} FromBETrimmed(s: seq<Byte>)
    ensures FromBE(Trimmed(s)) == FromBE(s)
  {
    if |s| > 0 && s[0] == 0 {
      FromBETrimmed(s[1..]);
      assert s == [0] + s[1..];
      FromBELeadingZero(s[1..]);
    }
  }

  /** A big-endian string whose first byte is not zero is at least 256^(n-1). */
  lemma {:induction false} FromBELowerBound(s: seq<Byte>)
    requires |s| > 0 && s[0] != 0
    ensures FromBE(s) >= Pow256(|s| - 1)
  {
    if |s| > 1 {
      FromBELowerBound(s[..|s| - 1]);
    }
  }

  /** The RLP string encoding of a nonce, as `rlpEncodeNonce` produces it. */
  function NonceEncoding(nonce: U64): seq<Byte>
  {
    var t := Trimmed(BE64(nonce));
    if |t| == 1 && t[0] <= 0x7f then t else [0x80 + |t|] + t
  }

  /**
   * The RLP rules for a scalar: 0 is the empty string `[0x80]`, 1..0x7f is the
   * byte itself, a larger value is `[0x80 + k]` followed by its k minimal
   * big-endian bytes, with k at most 8.
   */
  lemma NonceEncodingIsRlp(nonce: U64)
    ensures nonce == 0 ==> NonceEncoding(nonce) == [0x80]
    ensures 0 < nonce <= 0x7f ==> NonceEncoding(nonce) == [nonce]
    ensures nonce > 0x7f ==>
      var e := NonceEncoding(nonce);
      && 2 <= |e| <= 9
      && e[0] == 0x80 + (|e| - 1)
      && e[1] != 0
      && FromBE(e[1..]) == nonce
  {
    var t := Trimmed(BE64(nonce));
    FromBETrimmed(BE64(nonce));
    assert FromBE(t) == nonce;
    if t == [] {
      assert nonce == 0;
    } else {
      FromBELowerBound(t);
      if |t| == 1 {
        assert FromBE(t) == t[0] by {
          assert t[..0] == [];
        }
      } else {
        assert Pow256(1) == 256;
        assert Pow256(|t| - 1) >= 256 by {
          Pow256Monotone(1, |t| - 1);
        }
      }
    }
  }

  lemma {:induction false} Pow256Monotone(a: nat, b: nat)
    requires a <= b
    ensures Pow256(a) <= Pow256(b)
  {
    if a < b {
      Pow256Monotone(a, b - 1);
    }
  }

  /** The encoding is read back by the matching RLP decoding rule. */
  function DecodeNonce(e: seq<Byte>): Option<nat>
  {
    if |e| == 1 && e[0] <= 0x7f then Some(e[0])
    else if |e| >= 1 && e[0] == 0x80 + (|e| - 1) then Some(FromBE(e[1..]))
    else None
  }

  lemma NonceRoundTrip(nonce: U64)
    ensures DecodeNonce(NonceEncoding(nonce)) == Some(nonce)
  {
    NonceEncodingIsRlp(nonce);
    if nonce == 0 {
      assert NonceEncoding(nonce)[1..] == [];
    }
  }

  /** `rlpEncodeNonce`: strips leading zero bytes of the BE64 form in a loop. */
  method RlpEncodeNonce(nonce: U64) returns (r: seq<Byte>)
    ensures r == NonceEncoding(nonce)
  {
    var res := BE64(nonce);
    ghost var t := Trimmed(res);
    while |res| > 0 && res[0] == 0
      invariant |res| <= 8 && Trimmed(res) == t
      decreases |res|
    {
      res := res[1..];
    }
    assert Trimmed(res) == res;
    if |res| == 1 && 0x00 <= res[0] <= 0x7f {
      return res;
    }
    r := [0x80 + |res|] + res;
  }

  /** `rlpEncodeAddress`: the 20-byte string header 0x94 and the address. */
  function AddressEncoding(addr: Address): (r: seq<Byte>)
    ensures |r| == 21 && r[0] == 0x94 && r[1..] == addr
  {
    [0x94] + addr
  }

  /** `rlpEncodeCreate`: the list header `0xc0 + len(payload)` and the payload. */
  function CreateEncoding(caller: Address, nonce: U64): (r: seq<Byte>)
  {
    var payload := AddressEncoding(caller) + NonceEncoding(nonce);
    [(0xc0 + |payload|) % 256] + payload
  }

  /**
   * The payload is at most 30 bytes, so the header byte `0xc0 + len` never
   * wraps and the result is a well-formed short RLP list of the two strings.
   */
  lemma CreateEncodingShortList(caller: Address, nonce: U64)
    ensures var e := CreateEncoding(caller, nonce);
      && 23 <= |e| <= 31
      && e[0] == 0xc0 + (|e| - 1)
      && e[1..22] == AddressEncoding(caller)
      && e[22..] == NonceEncoding(nonce)
  {
    var n := NonceEncoding(nonce);
    NonceEncodingLength(nonce);
    var payload := AddressEncoding(caller) + n;
    var e := CreateEncoding(caller, nonce);
    assert e == [0xc0 + |payload|] + payload;
    assert e[1..] == payload;
    assert e[1..22] == payload[..21] == AddressEncoding(caller);
    assert e[22..] == payload[21..] == n;
  }

  /** The scalar encoding of a nonce is one to nine bytes. */
  lemma NonceEncodingLength(nonce: U64)
    ensures 1 <= |NonceEncoding(nonce)| <= 9
  {
    NonceEncodingIsRlp(nonce);
  }

  method RlpEncodeCreate(caller: Address, nonce: U64) returns (r: seq<Byte>)
    ensures r == CreateEncoding(caller, nonce)
  {
    var n := RlpEncodeNonce(nonce);
    var res := AddressEncoding(caller) + n;
    CreateEncodingShortList(caller, nonce);
    r := [0xc0 + |res|] + res;
  }

  // ---- bytesToAddress ----

  /** The inner `setBytes`: right-aligns the last 20 bytes of `b` into its own copy of `a`. */
  function SetBytes(a: Address, b: seq<Byte>): (r: Address)
  {
    var b := if |b| > 20 then b[|b| - 20..] else b;
    a[..20 - |b|] + b
  }

  /**
   * `bytesToAddress` as written: `setBytes` receives the array `a` by value,
   * so its write lands in a copy and the function returns `a` untouched.
   */
  function BytesToAddressAsWritten(b: seq<Byte>): Address
  {
    var a := ZERO_ADDRESS;
    var discardedCopy := SetBytes(a, b);
    a
  }

  /** As written, every digest becomes the zero address. */
  lemma BytesToAddressAsWrittenIsZero(b: seq<Byte>)
    ensures BytesToAddressAsWritten(b) == ZERO_ADDRESS
  {
  }

  /** A 20-byte input of all 0x01 bytes comes back as the zero address. */
  lemma BytesToAddressAsWrittenLosesInput()
    ensures var b := seq(20, _ => 1);
      BytesToAddressAsWritten(b) != b && BytesToAddress(b) == b
  {
    var b: seq<Byte> := seq(20, _ => 1);
    assert b[0] == 1;
    assert BytesToAddressAsWritten(b)[0] == 0;
  }

  /** The intended conversion: the last 20 bytes of `b`, left-padded with zeros if shorter. */
  function BytesToAddress(b: seq<Byte>): (r: Address)
    ensures |b| >= 20 ==> r == b[|b| - 20..]
    ensures |b| < 20 ==> r[20 - |b|..] == b && AllZero(r[..20 - |b|])
  {
    SetBytes(ZERO_ADDRESS, b)
  }

  /** `CreateAddress`: the last 20 bytes of Keccak-256 of the RLP of `[caller, nonce]`. */
  method CreateAddress(keccak: Hasher, caller: Address, nonce: U64) returns (r: Address)
    ensures r == keccak(CreateEncoding(caller, nonce))[12..]
  {
    var data := RlpEncodeCreate(caller, nonce);
    r := BytesToAddress(keccak(data)[12..]);
  }

  /** `CreateAddress2`: Keccak-256 of `0xff ++ creator ++ salt ++ inithash`, last 20 bytes (EIP-1014). */
  function CreateAddress2(keccak: Hasher, b: Address, salt: Hash, inithash: seq<Byte>): (r: Address)
    ensures r == keccak([0xff] + b + salt + inithash)[12..]
  {
    BytesToAddress(keccak([0xff] + b + salt + inithash)[12..])
  }
}
