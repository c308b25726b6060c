/** The hand-written SHA-256 (src/CurrentCognitionCycle.cpp) against FIPS 180-4. Bytes are integers below 256, words are
    32-bit vectors. */
module Sha256 {
  import opened Base

  type Byte = x: int | 0 <= x < 256
  type Word = bv32

  // --- The functions and constants of section 4 ---------------------------------------------------------------

  function Rotr(x: Word, n: nat): Word
    requires n < 32
  {
    (x >> n) | (x << (32 - n))
  }

  /** Addition modulo 2^32. */
  function Plus(x: Word, y: Word): Word { x + y }

  function Ch(x: Word, y: Word, z: Word): Word { (x & y) ^ (!x & z) }

  function Maj(x: Word, y: Word, z: Word): Word { (x & y) ^ (x & z) ^ (y & z) }

  function BigSigma0(x: Word): Word { Rotr(x, 2) ^ Rotr(x, 13) ^ Rotr(x, 22) }

  function BigSigma1(x: Word): Word { Rotr(x, 6) ^ Rotr(x, 11) ^ Rotr(x, 25) }

  function SmallSigma0(x: Word): Word { Rotr(x, 7) ^ Rotr(x, 18) ^ (x >> 3) }

  function SmallSigma1(x: Word): Word { Rotr(x, 17) ^ Rotr(x, 19) ^ (x >> 10) }

  function RoundConstants(): (k: seq<Word>)
    ensures |k| == 64
  {
    [ 0x428a2f98, 0x71374491, 0xb5c0fbcf, 0xe9b5dba5, 0x3956c25b, 0x59f111f1, 0x923f82a4, 0xab1c5ed5,
      0xd807aa98, 0x12835b01, 0x243185be, 0x550c7dc3, 0x72be5d74, 0x80deb1fe, 0x9bdc06a7, 0xc19bf174,
      0xe49b69c1, 0xefbe4786, 0x0fc19dc6, 0x240ca1cc, 0x2de92c6f, 0x4a7484aa, 0x5cb0a9dc, 0x76f988da,
      0x983e5152, 0xa831c66d, 0xb00327c8, 0xbf597fc7, 0xc6e00bf3, 0xd5a79147, 0x06ca6351, 0x14292967,
      0x27b70a85, 0x2e1b2138, 0x4d2c6dfc, 0x53380d13, 0x650a7354, 0x766a0abb, 0x81c2c92e, 0x92722c85,
      0xa2bfe8a1, 0xa81a664b, 0xc24b8b70, 0xc76c51a3, 0xd192e819, 0xd6990624, 0xf40e3585, 0x106aa070,
      0x19a4c116, 0x1e376c08, 0x2748774c, 0x34b0bcb5, 0x391c0cb3, 0x4ed8aa4a, 0x5b9cca4f, 0x682e6ff3,
      0x748f82ee, 0x78a5636f, 0x84c87814, 0x8cc70208, 0x90befffa, 0xa4506ceb, 0xbef9a3f7, 0xc67178f2 ]
  }

  datatype State = State(a: Word, b: Word, c: Word, d: Word, e: Word, f: Word, g: Word, h: Word)

  const INITIAL := State(0x6a09e667, 0xbb67ae85, 0x3c6ef372, 0xa54ff53a, 0x510e527f, 0x9b05688c, 0x1f83d9ab, 0x5be0cd19)

  // --- Padding, section 5.1.1 ---------------------------------------------------------------------------------

  function Zeros(n: nat): (z: seq<Byte>)
    ensures |z| == n
  {
    if n == 0 then [] else Zeros(n - 1) + [0]
  }

  /** The smallest k with length + 1 + k = 56 (mod 64). */
  function ZeroCount(length: nat): (k: nat)
    ensures k < 64 && (length + 1 + k) % 64 == 56
  {
    (119 - length % 64) % 64
  }

  /** The eight bytes of a 64-bit length, most significant first. */
  function LengthBytes(n: nat): (r: seq<Byte>)
    ensures |r| == 8
  {
    [ n / 0x100_0000_0000_0000 % 256, n / 0x1_0000_0000_0000 % 256, n / 0x100_0000_0000 % 256, n / 0x1_0000_0000 % 256,
      n / 0x100_0000 % 256, n / 0x1_0000 % 256, n / 0x100 % 256, n % 256 ]
  }

  function LengthOf(r: seq<Byte>): nat
    requires |r| == 8
  {
    var top: nat := r[0];
    256 * (256 * (256 * (256 * (256 * (256 * (256 * top + r[1]) + r[2]) + r[3]) + r[4]) + r[5]) + r[6]) + r[7]
  }

  function Pad(message: seq<Byte>): seq<Byte> {
    message + [0x80] + Zeros(ZeroCount(|message|)) + LengthBytes(8 * |message|)
  }

  /** The message a padded text stands for. */
  function Unpad(padded: seq<Byte>): Option<seq<Byte>> {
    if |padded| < 8 then None
    else
      var bits := LengthOf(padded[|padded| - 8..]);
      if bits % 8 != 0 || bits / 8 > |padded| then None else Some(padded[..bits / 8])
  }

  lemma LengthSurvives(n: nat)
    requires n < 0x1_0000_0000_0000_0000
    ensures LengthOf(LengthBytes(n)) == n
  {
    var n1 := n / 256;
    var n2 := n1 / 256;
    var n3 := n2 / 256;
    var n4 := n3 / 256;
    var n5 := n4 / 256;
    var n6 := n5 / 256;
    var n7 := n6 / 256;
    assert n2 == n / 0x1_0000 && n3 == n / 0x100_0000 && n4 == n / 0x1_0000_0000;
    assert n5 == n / 0x100_0000_0000 && n6 == n / 0x1_0000_0000_0000 && n7 == n / 0x100_0000_0000_0000;
    assert n7 < 256;
  }

  lemma PadLength(length: nat)
    ensures (length + 1 + ZeroCount(length) + 8) % 64 == 0
  {
  }

  /** The padding of every message below 2^61 bytes is a whole number of 64-byte blocks, and the message can be
      recovered from it. */
  lemma PaddingIsRecoverable(message: seq<Byte>)
    requires |message| < 0x2000_0000_0000_0000
    ensures |Pad(message)| % 64 == 0
    ensures Unpad(Pad(message)) == Some(message)
  {
    hide LengthOf, LengthBytes, Zeros;
    var p := Pad(message);
    assert p[|p| - 8..] == LengthBytes(8 * |message|);
    LengthSurvives(8 * |message|);
    assert p[..|message|] == message;
    PadLength(|message|);
  }

  // --- The hash computation, section 6.2.2 ----------------------------------------------------------------------

  function WordAt(bytes: seq<Byte>, offset: nat): Word
    requires offset + 4 <= |bytes|
  {
    ((bytes[offset] as bv32) << 24) | ((bytes[offset + 1] as bv32) << 16) | ((bytes[offset + 2] as bv32) << 8) | (bytes[offset + 3] as bv32)
  }

  /** Step 1: the message schedule of the block that starts at `base`. */
  function Schedule(bytes: seq<Byte>, base: nat, t: nat): Word
    requires base + 64 <= |bytes| && t < 64
  {
    if t < 16 then WordAt(bytes, base + 4 * t)
    else Plus(Plus(Plus(Schedule(bytes, base, t - 16), SmallSigma0(Schedule(bytes, base, t - 15))), Schedule(bytes, base, t - 7)),
              SmallSigma1(Schedule(bytes, base, t - 2)))
  }

  /** Step 3: one round. */
  function Round(s: State, k: Word, w: Word): State {
    var t1 := Plus(Plus(Plus(Plus(s.h, BigSigma1(s.e)), Ch(s.e, s.f, s.g)), k), w);
    var t2 := Plus(BigSigma0(s.a), Maj(s.a, s.b, s.c));
    State(Plus(t1, t2), s.a, s.b, s.c, Plus(s.d, t1), s.e, s.f, s.g)
  }

  function Rounds(s: State, bytes: seq<Byte>, base: nat, n: nat): State
    requires base + 64 <= |bytes| && n <= 64
  {
    if n == 0 then s else Round(Rounds(s, bytes, base, n - 1), RoundConstants()[n - 1], Schedule(bytes, base, n - 1))
  }

  /** Step 4: the intermediate hash value. */
  function Add(s: State, t: State): State {
    State(Plus(s.a, t.a), Plus(s.b, t.b), Plus(s.c, t.c), Plus(s.d, t.d), Plus(s.e, t.e), Plus(s.f, t.f), Plus(s.g, t.g), Plus(s.h, t.h))
  }

  /** The hash value after the first n blocks. */
  function Blocks(bytes: seq<Byte>, n: nat): State
    requires 64 * n <= |bytes|
  {
    if n == 0 then INITIAL
    else var s := Blocks(bytes, n - 1); Add(s, Rounds(s, bytes, 64 * (n - 1), 64))
  }

  function HexChar(x: Word): (c: char)
    ensures HexDigit(c)
  {
    if x == 0 then '0' else if x == 1 then '1' else if x == 2 then '2' else if x == 3 then '3'
    else if x == 4 then '4' else if x == 5 then '5' else if x == 6 then '6' else if x == 7 then '7'
    else if x == 8 then '8' else if x == 9 then '9' else if x == 10 then 'a' else if x == 11 then 'b'
    else if x == 12 then 'c' else if x == 13 then 'd' else if x == 14 then 'e' else 'f'
  }

  function HexWord(x: Word): (s: string)
    ensures |s| == 8 && forall i :: 0 <= i < 8 ==> HexDigit(s[i])
  {
    [ HexChar(x >> 28), HexChar((x >> 24) & 15), HexChar((x >> 20) & 15), HexChar((x >> 16) & 15),
      HexChar((x >> 12) & 15), HexChar((x >> 8) & 15), HexChar((x >> 4) & 15), HexChar(x & 15) ]
  }

  function Words(s: State): (w: seq<Word>)
    ensures |w| == 8
  {
    [s.a, s.b, s.c, s.d, s.e, s.f, s.g, s.h]
  }

  function HexWords(w: seq<Word>): (s: string)
    ensures |s| == 8 * |w| && forall i :: 0 <= i < |s| ==> HexDigit(s[i])
  {
    if w == [] then "" else HexWords(w[..|w| - 1]) + HexWord(w[|w| - 1])
  }

  /** SHA-256 of a message, in lower-case hexadecimal. */
  function Digest(message: seq<Byte>): (s: string)
    requires |message| < 0x2000_0000_0000_0000
    ensures LowercaseSha256(s)
  {
    var padded := Pad(message);
    assert |padded| % 64 == 0 by { PaddingIsRecoverable(message); }
    HexWords(Words(Blocks(padded, |padded| / 64)))
  }

  // --- The loops --------------------------------------------------------------------------------------------------

  /** The padding loops of `sha256_hex`. */
  method PadInPlace(input: seq<Byte>) returns (bytes: seq<Byte>)
    requires |input| < 0x2000_0000_0000_0000
    ensures bytes == Pad(input)
  {
    bytes := input + [0x80];
    ghost var k := 0;
    while |bytes| % 64 != 56
      invariant k <= ZeroCount(|input|)
      invariant bytes == input + [0x80] + Zeros(k)
      decreases ZeroCount(|input|) - k
    {
      bytes := bytes + [0];
      k := k + 1;
    }
    assert k == ZeroCount(|input|);
    bytes := AppendLength(bytes, |input| * 8);
  }

  /** The eight shifts of the bit length, with `unit` standing for 2^shift. */
  method AppendLength(body: seq<Byte>, bitLength: nat) returns (bytes: seq<Byte>)
    ensures bytes == body + LengthBytes(bitLength)
  {
    bytes := body;
    var shift, unit := 56, 0x100_0000_0000_0000;
    ghost var done := 0;
    while shift >= 0
      invariant 0 <= done <= 8 && shift == 56 - 8 * done
      invariant unit == [0x100_0000_0000_0000, 0x1_0000_0000_0000, 0x100_0000_0000, 0x1_0000_0000, 0x100_0000, 0x1_0000, 0x100, 1, 0][done]
      invariant bytes == body + LengthBytes(bitLength)[..done]
      decreases shift
    {
      bytes := bytes + [bitLength / unit % 256];
      shift, unit, done := shift - 8, unit / 256, done + 1;
    }
    assert LengthBytes(bitLength)[..8] == LengthBytes(bitLength);
  }

  /** The schedule loops: every index stays inside the 64-word table and inside the block. */
  method FillSchedule(bytes: seq<Byte>, base: nat, w: array<Word>)
    requires base + 64 <= |bytes| && w.Length == 64
    modifies w
    ensures forall i :: 0 <= i < 64 ==> w[i] == Schedule(bytes, base, i)
  {
    hide WordAt, SmallSigma0, SmallSigma1, Plus;
    var i := 0;
    while i < 16
      invariant 0 <= i <= 16
      invariant forall j :: 0 <= j < i ==> w[j] == Schedule(bytes, base, j)
    {
      w[i] := WordAt(bytes, base + i * 4);
      i := i + 1;
    }
    while i < 64
      invariant 16 <= i <= 64
      invariant forall j :: 0 <= j < i ==> w[j] == Schedule(bytes, base, j)
    {
      var s0 := SmallSigma0(w[i - 15]);
      var s1 := SmallSigma1(w[i - 2]);
      w[i] := Plus(Plus(Plus(w[i - 16], s0), w[i - 7]), s1);
      i := i + 1;
    }
  }

  /** The round loop over the eight working variables. */
  method CompressBlock(hash: State, bytes: seq<Byte>, base: nat, w: array<Word>) returns (next: State)
    requires base + 64 <= |bytes| && w.Length == 64
    requires forall i :: 0 <= i < 64 ==> w[i] == Schedule(bytes, base, i)
    ensures next == Add(hash, Rounds(hash, bytes, base, 64))
  {
    hide BigSigma0, BigSigma1, Ch, Maj, RoundConstants, Schedule, Plus;
    var a, b, c, d, e, f, g, h := hash.a, hash.b, hash.c, hash.d, hash.e, hash.f, hash.g, hash.h;
    var i := 0;
    while i < 64
      invariant 0 <= i <= 64
      invariant State(a, b, c, d, e, f, g, h) == Rounds(hash, bytes, base, i)
    {
      var t1 := Plus(Plus(Plus(Plus(h, BigSigma1(e)), Ch(e, f, g)), RoundConstants()[i]), w[i]);
      var t2 := Plus(BigSigma0(a), Maj(a, b, c));
      h := g;
      g := f;
      f := e;
      e := Plus(d, t1);
      d := c;
      c := b;
      b := a;
      a := Plus(t1, t2);
      i := i + 1;
    }
    next := Add(hash, State(a, b, c, d, e, f, g, h));
  }

  /** `sha256_hex` computes the recursively defined digest. */
  method Sha256Hex(input: seq<Byte>) returns (output: string)
    requires |input| < 0x2000_0000_0000_0000
    ensures output == Digest(input)
  {
    hide Pad, Schedule, Rounds, Add, HexWord, Unpad;
    var bytes := PadInPlace(input);
    PaddingIsRecoverable(input);
    var hash := INITIAL;
    var w := new Word[64];
    var n := 0;
    while 64 * n < |bytes|
      invariant 0 <= 64 * n <= |bytes|
      invariant hash == Blocks(bytes, n)
    {
      FillSchedule(bytes, 64 * n, w);
      hash := CompressBlock(hash, bytes, 64 * n, w);
      n := n + 1;
    }
    var words := Words(hash);
    output := "";
    var i := 0;
    while i < |words|
      invariant 0 <= i <= |words|
      invariant output == HexWords(words[..i])
    {
      output := output + HexWord(words[i]);
      assert words[..i + 1][..i] == words[..i];
      i := i + 1;
    }
    assert words[..i] == words;
  }
}
