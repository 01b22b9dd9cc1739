/**
 * Lowercase hex text of byte strings, and the two standard locking-script
 * templates that address predicates rebuild: pay-to-pubkey-hash and
 * pay-to-script-hash (BIP 16).
 */
module Script {
  import opened BitcoinTypes

  const OP_DUP: Byte := 0x76
  const OP_HASH160: Byte := 0xa9
  /** Pushes the next 20 bytes onto the stack. */
  const OP_PUSHBYTES_20: Byte := 0x14
  const OP_EQUAL: Byte := 0x87
  const OP_EQUALVERIFY: Byte := 0x88
  const OP_CHECKSIG: Byte := 0xac

  /** `OP_DUP OP_HASH160 <hash> OP_EQUALVERIFY OP_CHECKSIG` */
  function P2pkhScript(hash: seq<Byte>): (script: seq<Byte>)
    requires |hash| == 20
    ensures |script| == 25
    ensures script[..3] == [OP_DUP, OP_HASH160, OP_PUSHBYTES_20] && script[3..23] == hash
    ensures script[23..] == [OP_EQUALVERIFY, OP_CHECKSIG]
  {
    [OP_DUP, OP_HASH160, OP_PUSHBYTES_20] + hash + [OP_EQUALVERIFY, OP_CHECKSIG]
  }

  /** `OP_HASH160 <hash> OP_EQUAL` */
  function P2shScript(hash: seq<Byte>): (script: seq<Byte>)
    requires |hash| == 20
    ensures |script| == 23
    ensures script[..2] == [OP_HASH160, OP_PUSHBYTES_20] && script[2..22] == hash && script[22] == OP_EQUAL
  {
    [OP_HASH160, OP_PUSHBYTES_20] + hash + [OP_EQUAL]
  }

  /** The lowercase hex digit for a value below 16. */
  function HexDigit(n: int): char
    requires 0 <= n < 16
  {
    if n < 10 then (48 + n) as char else (87 + n) as char
  }

  /** Two lowercase hex digits per byte, most significant digit first. */
  function Hex(bytes: seq<Byte>): (s: string)
    ensures |s| == 2 * |bytes|
  {
    if bytes == [] then [] else [HexDigit(bytes[0] / 16), HexDigit(bytes[0] % 16)] + Hex(bytes[1..])
  }

  lemma HexDigitInjective(m: int, n: int)
    requires 0 <= m < 16 && 0 <= n < 16
    ensures HexDigit(m) == HexDigit(n) ==> m == n
  {
  }

  /** Hex text distributes over concatenation. */
  lemma {:induction false} HexAppend(a: seq<Byte>, b: seq<Byte>)
    ensures Hex(a + b) == Hex(a) + Hex(b)
  {
    if a != [] {
      assert (a + b)[1..] == a[1..] + b;
      HexAppend(a[1..], b);
    } else {
      assert a + b == b;
    }
  }

  /** Each byte is recovered from its two digits, so equal hex text means equal bytes. */
  lemma {:induction false} HexInjective(a: seq<Byte>, b: seq<Byte>)
    requires Hex(a) == Hex(b)
    ensures a == b
  {
    if a != [] {
      assert |b| == |a|;
      var x, y := a[0], b[0];
      assert Hex(a)[0] == HexDigit(x / 16) && Hex(b)[0] == HexDigit(y / 16);
      assert Hex(a)[1] == HexDigit(x % 16) && Hex(b)[1] == HexDigit(y % 16);
      HexDigitInjective(x / 16, y / 16);
      HexDigitInjective(x % 16, y % 16);
      assert x == 16 * (x / 16) + x % 16 && y == 16 * (y / 16) + y % 16;
      assert Hex(a[1..]) == Hex(a)[2..] == Hex(b)[2..] == Hex(b[1..]);
      HexInjective(a[1..], b[1..]);
      assert a == [a[0]] + a[1..] && b == [b[0]] + b[1..];
    }
  }

  /** The hex text of one byte. */
  lemma HexOfByte(b: Byte)
    ensures Hex([b]) == [HexDigit(b / 16), HexDigit(b % 16)]
  {
    assert [b][1..] == [];
  }

  /** Hex text of a two-byte string. */
  lemma HexOfPair(x: Byte, y: Byte)
    ensures Hex([x, y]) == [HexDigit(x / 16), HexDigit(x % 16), HexDigit(y / 16), HexDigit(y % 16)]
  {
    HexAppend([x], [y]);
    HexOfByte(x);
    HexOfByte(y);
    assert [x] + [y] == [x, y];
  }

  lemma P2pkhHeadHex()
    ensures Hex([OP_DUP, OP_HASH160, OP_PUSHBYTES_20]) == "76a914"
  {
    HexOfPair(OP_DUP, OP_HASH160);
    HexOfByte(OP_PUSHBYTES_20);
    HexAppend([OP_DUP, OP_HASH160], [OP_PUSHBYTES_20]);
    assert [OP_DUP, OP_HASH160] + [OP_PUSHBYTES_20] == [OP_DUP, OP_HASH160, OP_PUSHBYTES_20];
  }

  /** The hex text of a P2PKH script: the five opcodes around the 40 digits of the hash. */
  lemma P2pkhHexLayout(hash: seq<Byte>)
    requires |hash| == 20
    ensures Hex(P2pkhScript(hash)) == "76a914" + Hex(hash) + "88ac"
  {
    var head: seq<Byte> := [OP_DUP, OP_HASH160, OP_PUSHBYTES_20];
    var tail: seq<Byte> := [OP_EQUALVERIFY, OP_CHECKSIG];
    P2pkhHeadHex();
    HexOfPair(OP_EQUALVERIFY, OP_CHECKSIG);
    HexAppend(head + hash, tail);
    HexAppend(head, hash);
  }

  /** The hex text of a P2SH script: the three opcodes around the 40 digits of the hash. */
  lemma P2shHexLayout(hash: seq<Byte>)
    requires |hash| == 20
    ensures Hex(P2shScript(hash)) == "a914" + Hex(hash) + "87"
  {
    var head: seq<Byte> := [OP_HASH160, OP_PUSHBYTES_20];
    HexOfPair(OP_HASH160, OP_PUSHBYTES_20);
    HexOfByte(OP_EQUAL);
    HexAppend(head + hash, [OP_EQUAL]);
    HexAppend(head, hash);
  }

  /** A P2PKH script text determines its hash. */
  lemma P2pkhHexDeterminesHash(h1: seq<Byte>, h2: seq<Byte>)
    requires |h1| == 20 && |h2| == 20
    requires Hex(P2pkhScript(h1)) == Hex(P2pkhScript(h2))
    ensures h1 == h2
  {
    HexInjective(P2pkhScript(h1), P2pkhScript(h2));
    assert h1 == P2pkhScript(h1)[3..23] && h2 == P2pkhScript(h2)[3..23];
  }

  /** A P2SH script text determines its hash. */
  lemma P2shHexDeterminesHash(h1: seq<Byte>, h2: seq<Byte>)
    requires |h1| == 20 && |h2| == 20
    requires Hex(P2shScript(h1)) == Hex(P2shScript(h2))
    ensures h1 == h2
  {
    HexInjective(P2shScript(h1), P2shScript(h2));
    assert h1 == P2shScript(h1)[2..22] && h2 == P2shScript(h2)[2..22];
  }

  /** No script text is both a P2PKH and a P2SH script: their lengths differ. */
  lemma P2pkhAndP2shDiffer(h1: seq<Byte>, h2: seq<Byte>)
    requires |h1| == 20 && |h2| == 20
    ensures Hex(P2pkhScript(h1)) != Hex(P2shScript(h2))
  {
  }
}
