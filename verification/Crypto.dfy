/** User ids: keyed hash digests written in lower-case hexadecimal (src/crypto.cpp). */
module Crypto {

  /** crypto_generichash_BYTES_MIN of libsodium. */
  const HASH_SIZE := 16

  /** crypto_generichash_KEYBYTES of libsodium. */
  const KEY_SIZE := 32

  type Byte = bv8

  type Hash = h: seq<Byte> | |h| == HASH_SIZE witness seq(HASH_SIZE, _ => 0)

  /** crypto_generichash: some function of input and key. */
  type Hasher = (string, string) -> Hash

  const HEX_TABLE := "0123456789abcdef"

  predicate IsHexChar(c: char) {
    '0' <= c <= '9' || 'a' <= c <= 'f'
  }

  function LowToChar(a: Byte): (c: char)
    ensures IsHexChar(c)
  {
    HEX_TABLE[(a & 0x0f) as int]
  }

  function HighToChar(a: Byte): (c: char)
    ensures IsHexChar(c)
  {
    HEX_TABLE[((a & 0xf0) >> 4) as int]
  }

  function HexValue(c: char): (v: Byte)
    requires IsHexChar(c)
  {
    if c <= '9' then (c as int - '0' as int) as Byte else (c as int - 'a' as int + 10) as Byte
  }

  lemma ByteRoundTrip(a: Byte)
    ensures (HexValue(HighToChar(a)) << 4) | HexValue(LowToChar(a)) == a
  {
    HexValueOfTable((a & 0xf0) >> 4);
    HexValueOfTable(a & 0x0f);
  }

  lemma HexValueOfTable(a: Byte)
    requires a < 16
    ensures HexValue(HEX_TABLE[a as int]) == a
  {
    assert a == 0 || a == 1 || a == 2 || a == 3 || a == 4 || a == 5 || a == 6 || a == 7
        || a == 8 || a == 9 || a == 10 || a == 11 || a == 12 || a == 13 || a == 14 || a == 15;
  }

  /** The digits of a byte string, most significant nibble first. */
  function Hex(bytes: seq<Byte>): (s: string)
    ensures |s| == 2 * |bytes|
    ensures forall i :: 0 <= i < |s| ==> IsHexChar(s[i])
  {
    if bytes == [] then [] else Hex(bytes[..|bytes| - 1]) + [HighToChar(bytes[|bytes| - 1]), LowToChar(bytes[|bytes| - 1])]
  }

  /** The reverse direction; the source has none, it exists to show that nothing is lost. */
  function Unhex(s: string): (bytes: seq<Byte>)
    requires |s| % 2 == 0 && forall i :: 0 <= i < |s| ==> IsHexChar(s[i])
  {
    if s == [] then [] else Unhex(s[..|s| - 2]) + [(HexValue(s[|s| - 2]) << 4) | HexValue(s[|s| - 1])]
  }

  lemma {:induction false} HexRoundTrip(bytes: seq<Byte>)
    ensures Unhex(Hex(bytes)) == bytes
  {
    if bytes != [] {
      var last := bytes[|bytes| - 1];
      var s := Hex(bytes);
      assert s[..|s| - 2] == Hex(bytes[..|bytes| - 1]);
      HexRoundTrip(bytes[..|bytes| - 1]);
      ByteRoundTrip(last);
      assert bytes == bytes[..|bytes| - 1] + [last];
    }
  }

  /** Distinct hashes have distinct user ids. */
  lemma HexInjective(a: seq<Byte>, b: seq<Byte>)
    requires Hex(a) == Hex(b)
    ensures a == b
  {
    HexRoundTrip(a);
    HexRoundTrip(b);
  }

  method HashToString(hash: Hash) returns (output: string)
    ensures output == Hex(hash)
  {
    output := [];
    for i := 0 to |hash|
      invariant output == Hex(hash[..i])
    {
      assert hash[..i + 1][..i] == hash[..i];
      output := output + [HighToChar(hash[i])];
      output := output + [LowToChar(hash[i])];
    }
    assert hash[..|hash|] == hash;
  }

  /** The shape of every user id. */
  predicate IsDigest(u: string) {
    |u| == 2 * HASH_SIZE && forall i :: 0 <= i < |u| ==> IsHexChar(u[i])
  }

  /** The user id of a user and key; empty when they cannot be hashed. */
  function MakeHexDigest(hash: Hasher, input: string, key: string): (id: string)
    ensures id == "" <==> input == "" || |key| != KEY_SIZE
    ensures id != "" ==> IsDigest(id)
  {
    if input == "" then ""
    else if |key| != KEY_SIZE then ""
    else Hex(hash(input, key))
  }

  /** A user id is the hash of user and key, written out: nothing else goes into it and nothing is lost. */
  lemma UserIdIsHash(hash: Hasher, input: string, key: string)
    requires input != "" && |key| == KEY_SIZE
    ensures Unhex(MakeHexDigest(hash, input, key)) == hash(input, key)
  {
    HexRoundTrip(hash(input, key));
  }

  /** Two users and keys get the same user id exactly if their hashes collide. */
  lemma SameUserId(hash: Hasher, input: string, key: string, input2: string, key2: string)
    requires input != "" && |key| == KEY_SIZE && input2 != "" && |key2| == KEY_SIZE
    ensures MakeHexDigest(hash, input, key) == MakeHexDigest(hash, input2, key2) <==> hash(input, key) == hash(input2, key2)
  {
    UserIdIsHash(hash, input, key);
    UserIdIsHash(hash, input2, key2);
  }

  /** No text that contains a colon, so no key with a prefix in front, is a user id. */
  lemma PrefixedIsNoDigest(p: string, x: string)
    requires |p| > 0 && p[|p| - 1] == ':'
    ensures !IsDigest(p + x)
  {
    assert (p + x)[|p| - 1] == ':';
  }
}
