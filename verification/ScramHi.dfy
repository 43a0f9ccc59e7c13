/** The salted password of a SCRAM credential: internal/app_kafka_scram.go, lines 16-63. The two
    source functions differ only in the hash, here the parameter mac with its digest length. */
module ScramHi {
  type Bytes = seq<bv8>

  const DEFAULT_ITERATIONS := 4096

  ghost predicate FixedLength(mac: (Bytes, Bytes) -> Bytes, width: nat) {
    forall key: Bytes, message: Bytes :: |mac(key, message)| == width
  }

  /** U1, U2, ... of section 2.2 of RFC 5802: U1 is the HMAC of the salt followed by INT(1), and
      each next one the HMAC of the one before. */
  function U(mac: (Bytes, Bytes) -> Bytes, password: Bytes, salt: Bytes, k: nat): Bytes
    requires k >= 1
  {
    if k == 1 then mac(password, salt + [0, 0, 0, 1]) else mac(password, U(mac, password, salt, k - 1))
  }

  function Xor(a: Bytes, b: Bytes): (c: Bytes)
    requires |a| == |b|
    ensures |c| == |a|
  {
    seq(|a|, j requires 0 <= j < |a| => a[j] ^ b[j])
  }

  /** U_from XOR ... XOR U_to; all zeros when there is none. */
  function XorOfUs(mac: (Bytes, Bytes) -> Bytes, width: nat, password: Bytes, salt: Bytes, from: nat, to: nat): (r: Bytes)
    requires FixedLength(mac, width) && from >= 1
    ensures |r| == width
  {
    if to < from then seq(width, _ => 0)
    else Xor(XorOfUs(mac, width, password, salt, from, to - 1), U(mac, password, salt, to))
  }

  function Rounds(iterations: int): nat {
    if iterations < 1 then DEFAULT_ITERATIONS else iterations
  }

  method Hi(mac: (Bytes, Bytes) -> Bytes, ghost width: nat, password: Bytes, salt: Bytes, iterations: int)
    returns (result: array<bv8>)
    requires FixedLength(mac, width)
    ensures fresh(result)
    ensures result[..] == XorOfUs(mac, width, password, salt, 1, Rounds(iterations))
  {
    var rounds := iterations;
    if rounds < 1 {
      rounds := DEFAULT_ITERATIONS;
    }
    var u1 := mac(password, salt + [0, 0, 0, 1]);
    result := new bv8[|u1|](j requires 0 <= j < |u1| => u1[j]);
    var prev := u1;
    FirstRound(mac, width, password, salt);
    assert result[..] == u1;
    for i := 2 to rounds + 1
      invariant prev == U(mac, password, salt, i - 1)
      invariant result[..] == XorOfUs(mac, width, password, salt, 1, i - 1)
    {
      var ui := mac(password, prev);
      ghost var before := result[..];
      for j := 0 to result.Length
        invariant forall k :: 0 <= k < j ==> result[k] == before[k] ^ ui[k]
        invariant forall k :: j <= k < result.Length ==> result[k] == before[k]
      {
        result[j] := result[j] ^ ui[j];
      }
      assert result[..] == Xor(before, ui);
      prev := ui;
    }
  }

  lemma FirstRound(mac: (Bytes, Bytes) -> Bytes, width: nat, password: Bytes, salt: Bytes)
    requires FixedLength(mac, width)
    ensures XorOfUs(mac, width, password, salt, 1, 1) == U(mac, password, salt, 1)
  {
    var none := XorOfUs(mac, width, password, salt, 1, 0);
    var u := U(mac, password, salt, 1);
    forall j | 0 <= j < width ensures Xor(none, u)[j] == u[j] {
      ZeroXor(u[j]);
    }
  }

  /** The first block is the salt and the number one in four bytes, each later one the HMAC of the one
      before; a count below one stands for 4096. */
  lemma UsMean(mac: (Bytes, Bytes) -> Bytes, password: Bytes, salt: Bytes, k: nat, iterations: int)
    requires k > 1
    ensures U(mac, password, salt, 1) == mac(password, salt + [0x00, 0x00, 0x00, 0x01])
    ensures U(mac, password, salt, k) == mac(password, U(mac, password, salt, k - 1))
    ensures Rounds(iterations) == if iterations >= 1 then iterations else 4096
  {
  }

  lemma ZeroXor(x: bv8)
    ensures 0 ^ x == x
  {
  }

  // ---------------------------------------------------------------- what the result is

  /** mask selects one bit. */
  predicate OneBit(mask: bv8) {
    mask != 0 && mask & (mask - 1) == 0
  }

  /** How many of U_from ... U_to have the masked bit of byte j set. */
  function SetCount(mac: (Bytes, Bytes) -> Bytes, width: nat, password: Bytes, salt: Bytes,
                    from: nat, to: nat, j: nat, mask: bv8): nat
    requires FixedLength(mac, width) && from >= 1 && j < width
  {
    if to < from then 0
    else
      SetCount(mac, width, password, salt, from, to - 1, j, mask)
      + (if U(mac, password, salt, to)[j] & mask != 0 then 1 else 0)
  }

  lemma XorBit(x: bv8, y: bv8, mask: bv8)
    requires OneBit(mask)
    ensures ((x ^ y) & mask != 0) == ((x & mask != 0) != (y & mask != 0))
  {
  }

  /** Bit by bit: a bit of the result is set just when an odd number of the Us have it set. */
  lemma {:induction false} HiIsParity(mac: (Bytes, Bytes) -> Bytes, width: nat, password: Bytes, salt: Bytes,
                                      from: nat, to: nat, j: nat, mask: bv8)
    requires FixedLength(mac, width) && from >= 1 && j < width && OneBit(mask)
    ensures XorOfUs(mac, width, password, salt, from, to)[j] & mask != 0
            <==> SetCount(mac, width, password, salt, from, to, j, mask) % 2 == 1
  {
    if to >= from {
      HiIsParity(mac, width, password, salt, from, to - 1, j, mask);
      XorBit(XorOfUs(mac, width, password, salt, from, to - 1)[j], U(mac, password, salt, to)[j], mask);
    }
  }

  lemma XorAssociative(x: bv8, y: bv8, z: bv8)
    ensures (x ^ y) ^ z == x ^ (y ^ z)
  {
  }

  /** More iterations only XOR further Us into the result of fewer. */
  lemma {:induction false} HiExtends(mac: (Bytes, Bytes) -> Bytes, width: nat, password: Bytes, salt: Bytes,
                                     from: nat, mid: nat, to: nat)
    requires FixedLength(mac, width) && 1 <= from <= mid + 1 && mid <= to
    ensures XorOfUs(mac, width, password, salt, from, to)
            == Xor(XorOfUs(mac, width, password, salt, from, mid), XorOfUs(mac, width, password, salt, mid + 1, to))
  {
    var first := XorOfUs(mac, width, password, salt, from, mid);
    if to == mid {
      forall j | 0 <= j < width ensures first[j] ^ 0 == first[j] {
        ZeroXor(first[j]);
      }
    } else {
      HiExtends(mac, width, password, salt, from, mid, to - 1);
      var later, last := XorOfUs(mac, width, password, salt, mid + 1, to - 1), U(mac, password, salt, to);
      forall j | 0 <= j < width ensures (first[j] ^ later[j]) ^ last[j] == first[j] ^ (later[j] ^ last[j]) {
        XorAssociative(first[j], later[j], last[j]);
      }
      assert Xor(Xor(first, later), last) == Xor(first, Xor(later, last));
    }
  }
}
