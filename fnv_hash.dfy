/** The file fingerprint of the instrumented tests: `InputStream.hash`, a 64-bit FNV-1a
    (section 2 of the IETF draft draft-eastlake-fnv) written with Kotlin `Long`
    arithmetic, printed as 16 lower-case hex digits. */
module FnvHash {
  import opened Outcomes

  /** A Kotlin `Byte`, by its bit pattern (two's complement). */
  type JByte = bv8

  /** The 64-bit offset basis (section 2.2 of the draft). The Kotlin source writes it as
      the signed `Long` -3750763034362895579; a `Long` is modelled by its bit pattern. */
  const OffsetBasis: bv64 := 0xcbf2_9ce4_8422_2325

  /** The 64-bit FNV prime 2^40 + 2^8 + 0xb3 (section 2.1 of the draft). */
  const Prime: bv64 := 1099511628211

  /** The value a `Long` bit pattern denotes in Kotlin. */
  function SignedLong(x: bv64): (v: int)
    ensures -0x8000_0000_0000_0000 <= v < 0x8000_0000_0000_0000
    ensures (v - x as int) % 0x1_0000_0000_0000_0000 == 0
  {
    if x as int < 0x8000_0000_0000_0000 then x as int else x as int - 0x1_0000_0000_0000_0000
  }

  lemma OffsetBasisAsLong()
    ensures SignedLong(OffsetBasis) == -3750763034362895579
    ensures Prime == 0x100_0000_01b3
  {
  }

  /** `b.toLong()`: sign extension of the byte to a `Long`. */
  function ToLong(b: JByte): (l: bv64)
    ensures l & 0xff == b as bv64
    ensures b < 0x80 ==> l == b as bv64
    ensures b >= 0x80 ==> l >= 0xffff_ffff_ffff_ff80
  {
    if b < 0x80 then b as bv64 else (b as bv64) | 0xffff_ffff_ffff_ff00
  }

  /** `b.toLong() and 0xff`: the octet the byte's bits spell, 0..255, whatever its sign. */
  function Octet(b: JByte): (u: bv64)
    ensures u < 256 && u == b as bv64
  {
    ToLong(b) & 0xff
  }

  /** One FNV-1a round: xor in the octet, then multiply by the prime modulo 2^64
      (a `Long` multiplication wraps around). */
  function Step(h: bv64, b: JByte): bv64 {
    (h ^ Octet(b)) * Prime
  }

  /** The state after absorbing `s`, one octet after the other, from state `h`. */
  function Fold(h: bv64, s: seq<JByte>): bv64
    decreases |s|
  {
    if s == [] then h else Step(Fold(h, s[..|s| - 1]), s[|s| - 1])
  }

  /** The FNV-1a 64 hash of a byte sequence. */
  function Fnv1a64(s: seq<JByte>): bv64 {
    Fold(OffsetBasis, s)
  }

  /** The state carries across reads: absorbing `a` and then `b` is absorbing `a + b`. */
  lemma {:induction false} FoldConcat(h: bv64, a: seq<JByte>, b: seq<JByte>)
    ensures Fold(h, a + b) == Fold(Fold(h, a), b)
    decreases |b|
  {
    if b == [] {
      assert a + b == a;
    } else {
      var b' := b[..|b| - 1];
      assert (a + b)[..|a + b| - 1] == a + b';
      FoldConcat(h, a, b');
    }
  }

  /** The first octet is absorbed first: the fold read left to right. */
  lemma {:induction false} FoldCons(h: bv64, x: JByte, s: seq<JByte>)
    ensures Fold(h, [x] + s) == Fold(Step(h, x), s)
  {
    FoldConcat(h, [x], s);
    assert Fold(h, [x]) == Step(Fold(h, []), x) by {
      assert [x][..0] == [];
    }
  }

  /** Test vector of the draft: the one-octet string "a" (0x61). */
  lemma FnvOfA()
    ensures Fnv1a64([0x61]) == 0xaf63_dc4c_8601_ec8c
  {
    assert [0x61 as JByte][..0] == [];
  }

  // ---------------------------------------------------------------------------
  // Hex output: java.lang.Long.toUnsignedString(hash, 16).padStart(16, '0')

  /** The lower-case hex digit of `d`. */
  function HexDigit(d: nat): (c: char)
    requires d < 16
    ensures IsHexDigit(c)
  {
    if d < 10 then (48 + d) as char else (87 + d) as char
  }

  predicate IsHexDigit(c: char) {
    '0' <= c <= '9' || 'a' <= c <= 'f'
  }

  predicate IsHex(s: string) {
    forall i :: 0 <= i < |s| ==> IsHexDigit(s[i])
  }

  function DigitValue(c: char): (d: nat)
    requires IsHexDigit(c)
    ensures d < 16 && HexDigit(d) == c
  {
    if '0' <= c <= '9' then c as int - '0' as int else c as int - 'a' as int + 10
  }

  /** The shortest lower-case hex numeral of `n`, as `Long.toUnsignedString(_, 16)`
      prints the unsigned value of a `Long`. */
  function UnsignedHex(n: nat): (s: string)
    ensures |s| >= 1 && (n > 0 ==> s[0] != '0') && IsHex(s)
    decreases n
  {
    if n < 16 then [HexDigit(n)] else UnsignedHex(n / 16) + [HexDigit(n % 16)]
  }

  /** The number a hex numeral denotes. */
  function ParseHex(s: string): nat
    requires IsHex(s)
    decreases |s|
  {
    if s == [] then 0 else ParseHex(s[..|s| - 1]) * 16 + DigitValue(s[|s| - 1])
  }

  function Zeros(z: nat): (r: string)
    ensures |r| == z && IsHex(r)
    ensures forall i :: 0 <= i < z ==> r[i] == '0'
  {
    seq(z, _ => '0')
  }

  /** Kotlin `padStart(len, c)`: prefixes copies of `c` up to length `len`. */
  function PadStart(s: string, len: nat, c: char): (r: string)
    ensures |s| >= len ==> r == s
    ensures |s| < len ==> |r| == len && r[len - |s|..] == s
    ensures |s| < len ==> forall i :: 0 <= i < len - |s| ==> r[i] == c
  {
    if |s| >= len then s else seq(len - |s|, _ => c) + s
  }

  /** What `hash` returns for the final state. */
  function Hex16(h: bv64): string {
    PadStart(UnsignedHex(h as int), 16, '0')
  }

  lemma {:induction false} UnsignedHexRoundTrip(n: nat)
    ensures ParseHex(UnsignedHex(n)) == n
    decreases n
  {
    var s := UnsignedHex(n);
    if n < 16 {
      assert s[..0] == [];
    } else {
      UnsignedHexRoundTrip(n / 16);
      assert s[..|s| - 1] == UnsignedHex(n / 16);
    }
  }

  function Pow16(k: nat): (p: nat)
    ensures p >= 1
  {
    if k == 0 then 1 else 16 * Pow16(k - 1)
  }

  lemma {:induction false} UnsignedHexLength(n: nat, k: nat)
    requires n < Pow16(k) && k >= 1
    ensures |UnsignedHex(n)| <= k
    decreases k
  {
    if n >= 16 {
      assert Pow16(k) == 16 * Pow16(k - 1);
      UnsignedHexLength(n / 16, k - 1);
    }
  }

  lemma Pow16Of16()
    ensures Pow16(16) == 0x1_0000_0000_0000_0000
  {
    assert Pow16(4) == 0x1_0000;
    assert Pow16(8) == 0x1_0000_0000;
    assert Pow16(12) == 0x1_0000_0000_0000;
  }

  /** Leading zeros do not change the number a numeral denotes. */
  lemma {:induction false} ParseHexLeadingZeros(z: nat, s: string)
    requires IsHex(s)
    ensures IsHex(Zeros(z) + s) && ParseHex(Zeros(z) + s) == ParseHex(s)
    decreases |s|
  {
    var t := Zeros(z) + s;
    assert IsHex(t) by {
      forall i | 0 <= i < |t|
        ensures IsHexDigit(t[i])
      {
        if i >= z {
          assert t[i] == s[i - z];
        }
      }
    }
    if s == [] {
      assert t == Zeros(z);
      ParseHexZeros(z);
    } else {
      var s' := s[..|s| - 1];
      ParseHexLeadingZeros(z, s');
      assert t[..|t| - 1] == Zeros(z) + s';
    }
  }

  lemma {:induction false} ParseHexZeros(z: nat)
    ensures ParseHex(Zeros(z)) == 0
    decreases z
  {
    if z > 0 {
      ParseHexZeros(z - 1);
      assert Zeros(z)[..z - 1] == Zeros(z - 1);
    }
  }

  /** The printed hash is exactly 16 hex digits and reads back as the final state. */
  lemma Hex16Spec(h: bv64)
    ensures |Hex16(h)| == 16
    ensures IsHex(Hex16(h))
    ensures ParseHex(Hex16(h)) == h as int
  {
    var s := UnsignedHex(h as int);
    Pow16Of16();
    UnsignedHexLength(h as int, 16);
    UnsignedHexRoundTrip(h as int);
    if |s| < 16 {
      ParseHexLeadingZeros(16 - |s|, s);
      assert Hex16(h) == Zeros(16 - |s|) + s;
    }
  }

  lemma EmptyStreamHash()
    ensures Hex16(Fnv1a64([])) == "cbf29ce484222325"
  {
    assert Fnv1a64([]) == OffsetBasis;
    assert OffsetBasis as int == 0xcbf29ce484222325;
    // Long.toUnsignedString builds the numeral one digit at a time, most significant first
    assert UnsignedHex(0xc) == "c";
    HexDigitStep(0xcb, "c", 'b');
    HexDigitStep(0xcbf, "cb", 'f');
    HexDigitStep(0xcbf2, "cbf", '2');
    HexDigitStep(0xcbf29, "cbf2", '9');
    HexDigitStep(0xcbf29c, "cbf29", 'c');
    HexDigitStep(0xcbf29ce, "cbf29c", 'e');
    HexDigitStep(0xcbf29ce4, "cbf29ce", '4');
    HexDigitStep(0xcbf29ce48, "cbf29ce4", '8');
    HexDigitStep(0xcbf29ce484, "cbf29ce48", '4');
    HexDigitStep(0xcbf29ce4842, "cbf29ce484", '2');
    HexDigitStep(0xcbf29ce48422, "cbf29ce4842", '2');
    HexDigitStep(0xcbf29ce484222, "cbf29ce48422", '2');
    HexDigitStep(0xcbf29ce4842223, "cbf29ce484222", '3');
    HexDigitStep(0xcbf29ce48422232, "cbf29ce4842223", '2');
    HexDigitStep(0xcbf29ce484222325, "cbf29ce48422232", '5');
  }

  /** The numeral of `n` is that of `n / 16` followed by the digit of `n % 16`. */
  lemma HexDigitStep(n: nat, prefix: string, d: char)
    requires n >= 16 && UnsignedHex(n / 16) == prefix && HexDigit(n % 16) == d
    ensures UnsignedHex(n) == prefix + [d]
  {
  }

  // ---------------------------------------------------------------------------
  // The stream and the hashing loop

  /** A `java.io.InputStream` over a fixed byte content. `Read` may deliver any
      non-empty prefix of what is left, as `InputStream.read(b)` is allowed to. */
  class ByteStream {
    const content: seq<JByte>
    var pos: nat

    ghost predicate Valid()
      reads this
    {
      pos <= |content|
    }

    constructor (content: seq<JByte>)
      ensures Valid() && this.content == content && pos == 0
    {
      this.content := content;
      pos := 0;
    }

    /** `read(buf)`: 0 for an empty buffer, -1 at the end of the stream, otherwise the
        number n >= 1 of bytes stored in `buf[..n]`. */
    method Read(buf: array<JByte>) returns (n: int)
      requires Valid()
      modifies this, buf
      ensures Valid()
      ensures buf.Length == 0 ==> n == 0 && pos == old(pos)
      ensures buf.Length > 0 && old(pos) == |content| ==> n == -1 && pos == old(pos)
      ensures buf.Length > 0 && old(pos) < |content| ==>
        1 <= n <= buf.Length && pos == old(pos) + n && buf[..n] == content[old(pos)..pos]
    {
      if buf.Length == 0 {
        n := 0;
      } else if pos == |content| {
        n := -1;
      } else {
        assert 1 <= buf.Length && 1 <= |content| - pos;
        var k :| 1 <= k <= buf.Length && k <= |content| - pos;
        forall i | 0 <= i < k {
          buf[i] := content[pos + i];
        }
        pos := pos + k;
        n := k;
      }
    }
  }

  /** The inner loop of `hash`: absorbs the first `n` bytes of the buffer, no more. */
  method Absorb(h: bv64, buf: array<JByte>, n: int) returns (h': bv64)
    requires 0 <= n <= buf.Length
    ensures h' == Fold(h, buf[..n])
  {
    h' := h;
    for i := 0 to n
      invariant h' == Fold(h, buf[..i])
    {
      assert buf[..i + 1][..i] == buf[..i];
      h' := Step(h', buf[i]);
    }
  }

  /** `InputStream.hash(bufferSize)`. The result is the FNV-1a 64 hash of everything
      the stream had left, whatever the buffer size and however the reads split it. */
  method Hash(stream: ByteStream, bufferSize: int) returns (r: Result<string>)
    requires stream.Valid()
    requires bufferSize != 0
    modifies stream
    ensures bufferSize < 0 ==> r == Failure(NegativeArraySize(bufferSize)) && stream.pos == old(stream.pos)
    ensures bufferSize > 0 ==> stream.pos == |stream.content|
    ensures bufferSize > 0 ==> r == Success(Hex16(Fnv1a64(stream.content[old(stream.pos)..])))
  {
    if bufferSize < 0 {
      return Failure(NegativeArraySize(bufferSize));
    }
    var buf := new JByte[bufferSize];
    var hash := OffsetBasis;
    ghost var start := stream.pos;
    while true
      invariant stream.Valid() && start <= stream.pos
      invariant hash == Fnv1a64(stream.content[start..stream.pos])
      decreases |stream.content| - stream.pos
    {
      ghost var before := stream.pos;
      var read := stream.Read(buf);
      if read == -1 {
        break;
      }
      hash := Absorb(hash, buf, read);
      assert stream.content[start..stream.pos] == stream.content[start..before] + buf[..read];
      FoldConcat(OffsetBasis, stream.content[start..before], buf[..read]);
    }
    assert stream.content[start..] == stream.content[start..stream.pos];
    r := Success(Hex16(hash));
  }
}
