/**
 * `base64_encode` of IMVWebServer.cpp: the standard alphabet of section 4
 * of RFC 4648 with `=` padding. The method is the encoder's two loops over
 * an output buffer; `Encode` is the encoding as RFC 4648 defines it, and
 * `Decode` its inverse, which the lemmas connect to it.
 */
module Base64 {
  import opened Common

  /** `encoding_table`, the 64-symbol alphabet. */
  const EncodingTable: seq<char> :=
      ['A', 'B', 'C', 'D', 'E', 'F', 'G', 'H']
    + ['I', 'J', 'K', 'L', 'M', 'N', 'O', 'P']
    + ['Q', 'R', 'S', 'T', 'U', 'V', 'W', 'X']
    + ['Y', 'Z', 'a', 'b', 'c', 'd', 'e', 'f']
    + ['g', 'h', 'i', 'j', 'k', 'l', 'm', 'n']
    + ['o', 'p', 'q', 'r', 's', 't', 'u', 'v']
    + ['w', 'x', 'y', 'z', '0', '1', '2', '3']
    + ['4', '5', '6', '7', '8', '9', '+', '/']

  /** `mod_table`: how many `=` end the output, by input length modulo 3. */
  const ModTable: seq<nat> := [0, 2, 1]

  function Padding(n: nat): nat
  {
    ModTable[n % 3]
  }

  /** The symbol standing for six bits of value `k`. */
  function Alphabet(k: nat): char
    requires k < 64
  {
    if k < 26 then ('A' as int + k) as char
    else if k < 52 then ('a' as int + k - 26) as char
    else if k < 62 then ('0' as int + k - 52) as char
    else if k == 62 then '+'
    else '/'
  }

  predicate IsSymbol(c: char)
  {
    'A' <= c <= 'Z' || 'a' <= c <= 'z' || '0' <= c <= '9' || c == '+' || c == '/'
  }

  /** The position of a symbol in the alphabet (0 for anything else). */
  function IndexOf(c: char): (k: nat)
    ensures k < 64
    ensures IsSymbol(c) ==> Alphabet(k) == c
  {
    if 'A' <= c <= 'Z' then c as int - 'A' as int
    else if 'a' <= c <= 'z' then c as int - 'a' as int + 26
    else if '0' <= c <= '9' then c as int - '0' as int + 52
    else if c == '+' then 62
    else if c == '/' then 63
    else 0
  }

  lemma AlphabetInverse(k: nat)
    requires k < 64
    ensures IsSymbol(Alphabet(k)) && IndexOf(Alphabet(k)) == k
  {
  }

  /** `encoding_table` lists the alphabet in order. */
  lemma TableIsAlphabet(k: int)
    requires 0 <= k < 64
    ensures EncodingTable[k] == Alphabet(k)
  {
    if k < 8 {
      assert k == 0 || k == 1 || k == 2 || k == 3 || k == 4 || k == 5 || k == 6 || k == 7;
    } else if k < 16 {
      assert k == 8 || k == 9 || k == 10 || k == 11 || k == 12 || k == 13 || k == 14 || k == 15;
    } else if k < 24 {
      assert k == 16 || k == 17 || k == 18 || k == 19 || k == 20 || k == 21 || k == 22 || k == 23;
    } else if k < 32 {
      assert k == 24 || k == 25 || k == 26 || k == 27 || k == 28 || k == 29 || k == 30 || k == 31;
    } else if k < 40 {
      assert k == 32 || k == 33 || k == 34 || k == 35 || k == 36 || k == 37 || k == 38 || k == 39;
    } else if k < 48 {
      assert k == 40 || k == 41 || k == 42 || k == 43 || k == 44 || k == 45 || k == 46 || k == 47;
    } else if k < 56 {
      assert k == 48 || k == 49 || k == 50 || k == 51 || k == 52 || k == 53 || k == 54 || k == 55;
    } else if k < 64 {
      assert k == 56 || k == 57 || k == 58 || k == 59 || k == 60 || k == 61 || k == 62 || k == 63;
    }
  }

  /** The 24-bit group of three octets: the encoder's `triple`. */
  function Triple(a: byte, b: byte, c: byte): (t: nat)
    ensures t < 0x100_0000
  {
    a as nat * 0x1_0000 + b as nat * 0x100 + c as nat
  }

  /** `t >> 6 * k` on an unsigned value. */
  function Shift(t: nat, k: nat): nat
  {
    if k == 0 then t else Shift(t, k - 1) / 0x40
  }

  /**
   * The six bits of `t` starting at bit `6 * k`: `(t >> 6 * k) & 0x3F` on
   * the encoder's unsigned 32-bit `triple`.
   */
  function Bits(t: nat, k: nat): (x: nat)
    ensures x < 64
  {
    Shift(t, k) % 0x40
  }

  /** The symbols of the `k` low six-bit fields of `t`, most significant first. */
  function Symbols(t: nat, k: nat): (s: string)
    ensures |s| == k
  {
    if k == 0 then [] else [Alphabet(Bits(t, k - 1))] + Symbols(t, k - 1)
  }

  lemma SymbolsOfGroup(t: nat)
    ensures Symbols(t, 4) == [Alphabet(Bits(t, 3)), Alphabet(Bits(t, 2)), Alphabet(Bits(t, 1)), Alphabet(Bits(t, 0))]
  {
    assert Symbols(t, 1) == [Alphabet(Bits(t, 0))];
    assert Symbols(t, 2) == [Alphabet(Bits(t, 1))] + Symbols(t, 1);
    assert Symbols(t, 3) == [Alphabet(Bits(t, 2))] + Symbols(t, 2);
  }

  /** The four symbols of one 24-bit group. */
  function Quantum(a: byte, b: byte, c: byte): string
  {
    Symbols(Triple(a, b, c), 4)
  }

  /**
   * Section 4 of RFC 4648: each group of three octets gives four symbols;
   * a final group of one octet gives two symbols and "==", a final group
   * of two octets three symbols and "=".
   */
  function Encode(data: seq<byte>): string
    decreases |data|
  {
    if |data| == 0 then []
    else if |data| == 1 then Quantum(data[0], 0, 0)[..2] + "=="
    else if |data| == 2 then Quantum(data[0], data[1], 0)[..3] + "="
    else Quantum(data[0], data[1], data[2]) + Encode(data[3..])
  }

  /** What the encoder's first loop writes: every group zero-filled, no padding. */
  function Unpadded(data: seq<byte>): (s: string)
    ensures |s| == 4 * ((|data| + 2) / 3)
    decreases |data|
  {
    if |data| == 0 then []
    else if |data| == 1 then Quantum(data[0], 0, 0)
    else if |data| == 2 then Quantum(data[0], data[1], 0)
    else Quantum(data[0], data[1], data[2]) + Unpadded(data[3..])
  }

  /** The value of a run of symbols read as base-64 digits; `=` counts as zero. */
  function Gather(s: string): nat
  {
    if |s| == 0 then 0 else Gather(s[..|s| - 1]) * 0x40 + IndexOf(s[|s| - 1])
  }

  /** Octet `k` of `t`, counting from the least significant. */
  function ByteAt(t: nat, k: nat): byte
  {
    if k == 0 then (t % 0x100) as byte else ByteAt(t / 0x100, k - 1)
  }

  /** The `k` low octets of `t`, most significant first. */
  function Octets(t: nat, k: nat): (s: seq<byte>)
    ensures |s| == k
  {
    if k == 0 then [] else [ByteAt(t, k - 1)] + Octets(t, k - 1)
  }

  /** Inverse of `Encode`: each four symbols back to the three octets they carry. */
  function Decode(s: string): seq<byte>
    decreases |s|
  {
    if |s| < 4 then []
    else
      var octets := Octets(Gather(s[..4]), 3);
      if |s| == 4 && s[2] == '=' then octets[..1]
      else if |s| == 4 && s[3] == '=' then octets[..2]
      else octets + Decode(s[4..])
  }

  lemma SextetSplit(t: int, s3: int, s2: int, s1: int, s0: int)
    requires 0 <= s3 < 64 && 0 <= s2 < 64 && 0 <= s1 < 64 && 0 <= s0 < 64
    requires t == s3 * 0x4_0000 + s2 * 0x1000 + s1 * 0x40 + s0
    ensures Bits(t, 3) == s3 && Bits(t, 2) == s2 && Bits(t, 1) == s1 && Bits(t, 0) == s0
  {
    assert Shift(t, 1) == s3 * 0x1000 + s2 * 0x40 + s1;
    assert Shift(t, 2) == s3 * 0x40 + s2;
    assert Shift(t, 3) == s3;
  }

  lemma OctetSplit(a: byte, b: byte, c: byte)
    ensures Octets(Triple(a, b, c), 3) == [a, b, c]
  {
    var t := Triple(a, b, c);
    assert t == (a as int * 0x100 + b as int) * 0x100 + c as int;
    assert t % 0x100 == c as int && t / 0x100 == a as int * 0x100 + b as int;
    assert t / 0x100 % 0x100 == b as int && t / 0x100 / 0x100 == a as int;
    assert ByteAt(t, 0) == c;
    assert ByteAt(t, 1) == ByteAt(t / 0x100, 0) == b;
    assert ByteAt(t, 2) == ByteAt(t / 0x100, 1) == ByteAt(t / 0x100 / 0x100, 0) == a;
    assert Octets(t, 1) == [c];
    assert Octets(t, 2) == [b] + Octets(t, 1);
  }

  lemma GatherFour(s: string)
    requires |s| == 4
    ensures Gather(s) == IndexOf(s[0]) * 0x4_0000 + IndexOf(s[1]) * 0x1000 + IndexOf(s[2]) * 0x40 + IndexOf(s[3])
  {
    assert s[..3][..2] == s[..2] && s[..2][..1] == s[..1] && s[..1][..0] == [];
    assert Gather(s[..1]) == IndexOf(s[0]);
    assert Gather(s[..2]) == IndexOf(s[0]) * 0x40 + IndexOf(s[1]);
    assert Gather(s[..3]) == (IndexOf(s[0]) * 0x40 + IndexOf(s[1])) * 0x40 + IndexOf(s[2]);
  }

  lemma QuantumDecodes(a: byte, b: byte, c: byte)
    ensures var q := Quantum(a, b, c); var t := Triple(a, b, c);
      IndexOf(q[0]) == Bits(t, 3) && IndexOf(q[1]) == Bits(t, 2) &&
      IndexOf(q[2]) == Bits(t, 1) && IndexOf(q[3]) == Bits(t, 0) &&
      IsSymbol(q[0]) && IsSymbol(q[1]) && IsSymbol(q[2]) && IsSymbol(q[3])
  {
    var t := Triple(a, b, c);
    SymbolsOfGroup(t);
    AlphabetInverse(Bits(t, 3));
    AlphabetInverse(Bits(t, 2));
    AlphabetInverse(Bits(t, 1));
    AlphabetInverse(Bits(t, 0));
  }

  /** The six-bit fields of a group, in terms of its octets. */
  lemma SextetsOfTriple(a: byte, b: byte, c: byte)
    ensures var t := Triple(a, b, c);
      t == Bits(t, 3) * 0x4_0000 + Bits(t, 2) * 0x1000 + Bits(t, 1) * 0x40 + Bits(t, 0) &&
      (b == 0 && c == 0 ==> Bits(t, 1) == 0) && (c == 0 ==> Bits(t, 0) == 0)
  {
    var t := Triple(a, b, c);
    var s3, s2, s1, s0 := a as int / 4, a as int % 4 * 16 + b as int / 16, b as int % 16 * 4 + c as int / 64, c as int % 64;
    assert t == s3 * 0x4_0000 + s2 * 0x1000 + s1 * 0x40 + s0;
    SextetSplit(t, s3, s2, s1, s0);
  }

  lemma GatherQuantum(a: byte, b: byte, c: byte)
    ensures var t := Triple(a, b, c);
      Gather(Quantum(a, b, c)) == Bits(t, 3) * 0x4_0000 + Bits(t, 2) * 0x1000 + Bits(t, 1) * 0x40 + Bits(t, 0)
  {
    QuantumDecodes(a, b, c);
    GatherFour(Quantum(a, b, c));
  }

  /**
   * Gathering the symbols of a group gives the group back, also when the
   * zero-filled trailing symbols are written as `=`.
   */
  lemma GroupRoundTrip(a: byte, b: byte, c: byte)
    ensures var q := Quantum(a, b, c);
      Gather(q) == Triple(a, b, c) &&
      (c == 0 ==> Gather(q[..3] + "=") == Triple(a, b, c)) &&
      (b == 0 && c == 0 ==> Gather(q[..2] + "==") == Triple(a, b, c))
  {
    var q := Quantum(a, b, c);
    GatherQuantum(a, b, c);
    SextetsOfTriple(a, b, c);
    QuantumDecodes(a, b, c);
    GatherFour(q);
    GatherFour(q[..3] + "=");
    GatherFour(q[..2] + "==");
  }

  lemma {:induction false} DecodeEncode(data: seq<byte>)
    ensures Decode(Encode(data)) == data
    decreases |data|
  {
    if |data| == 1 {
      var q := Quantum(data[0], 0, 0);
      GroupRoundTrip(data[0], 0, 0);
      OctetSplit(data[0], 0, 0);
      QuantumDecodes(data[0], 0, 0);
      assert Encode(data)[..4] == q[..2] + "==";
    } else if |data| == 2 {
      var q := Quantum(data[0], data[1], 0);
      GroupRoundTrip(data[0], data[1], 0);
      OctetSplit(data[0], data[1], 0);
      QuantumDecodes(data[0], data[1], 0);
      assert Encode(data)[..4] == q[..3] + "=";
    } else if |data| >= 3 {
      var q, rest := Quantum(data[0], data[1], data[2]), Encode(data[3..]);
      GroupRoundTrip(data[0], data[1], data[2]);
      OctetSplit(data[0], data[1], data[2]);
      QuantumDecodes(data[0], data[1], data[2]);
      DecodeEncode(data[3..]);
      assert Encode(data) == q + rest;
      assert (q + rest)[..4] == q && (q + rest)[4..] == rest;
      assert data == data[..3] + data[3..];
    }
  }

  lemma {:induction false} UnpaddedSymbols(data: seq<byte>)
    ensures forall m :: 0 <= m < |Unpadded(data)| ==> IsSymbol(Unpadded(data)[m])
    decreases |data|
  {
    if |data| == 1 {
      QuantumDecodes(data[0], 0, 0);
    } else if |data| == 2 {
      QuantumDecodes(data[0], data[1], 0);
    } else if |data| >= 3 {
      var q, rest := Quantum(data[0], data[1], data[2]), Unpadded(data[3..]);
      QuantumDecodes(data[0], data[1], data[2]);
      UnpaddedSymbols(data[3..]);
      assert Unpadded(data) == q + rest;
      forall m | 0 <= m < |q + rest|
        ensures IsSymbol((q + rest)[m])
      {
        if m >= 4 {
          assert (q + rest)[m] == rest[m - 4];
        }
      }
    }
  }

  /**
   * Length 4 * ceil(n / 3); the last `mod_table[n % 3]` symbols are `=`
   * and every other one is from the alphabet.
   */
  lemma EncodeShape(data: seq<byte>)
    ensures |Encode(data)| == 4 * ((|data| + 2) / 3)
    ensures forall m :: 0 <= m < |Encode(data)| - Padding(|data|) ==> IsSymbol(Encode(data)[m])
    ensures forall m :: |Encode(data)| - Padding(|data|) <= m < |Encode(data)| ==> Encode(data)[m] == '='
  {
    EncodeIsPaddedUnpadded(data);
    UnpaddedSymbols(data);
    EqualsAll(Padding(|data|));
  }

  /** The encoding holds no NUL, so a C string of it ends where the encoding ends. */
  lemma EncodeHasNoNul(data: seq<byte>)
    ensures '\0' !in Encode(data)
  {
    EncodeShape(data);
    forall m | 0 <= m < |Encode(data)|
      ensures Encode(data)[m] != '\0'
    {
    }
  }

  /** `k` padding characters. */
  function Equals(k: nat): (s: string)
    ensures |s| == k
  {
    if k == 0 then [] else "=" + Equals(k - 1)
  }

  lemma {:induction false} EqualsAll(k: nat)
    ensures forall m :: 0 <= m < k ==> Equals(k)[m] == '='
  {
    if k > 0 {
      EqualsAll(k - 1);
      assert forall m :: 1 <= m < k ==> Equals(k)[m] == Equals(k - 1)[m - 1];
    }
  }

  /** The padded encoding is the unpadded one with its last symbols replaced by `=`. */
  lemma {:induction false} EncodeIsPaddedUnpadded(data: seq<byte>)
    ensures Padding(|data|) <= |Unpadded(data)|
    ensures Encode(data) == Unpadded(data)[..|Unpadded(data)| - Padding(|data|)] + Equals(Padding(|data|))
    decreases |data|
  {
    if |data| >= 3 {
      EncodeIsPaddedUnpadded(data[3..]);
      var q := Quantum(data[0], data[1], data[2]);
      var r := Unpadded(data[3..]);
      var p := Padding(|data|);
      assert Padding(|data| - 3) == p;
      SliceAfter(q, r, p);
    } else if |data| > 0 {
      PaddedLastGroup(data);
    }
  }

  lemma SliceAfter(q: string, r: string, p: nat)
    requires p <= |r|
    ensures (q + r)[..|q + r| - p] == q + r[..|r| - p]
  {
  }

  lemma PaddedLastGroup(data: seq<byte>)
    requires 0 < |data| < 3
    ensures Encode(data) == Unpadded(data)[..4 - Padding(|data|)] + Equals(Padding(|data|))
  {
    ShortPadding();
    if |data| == 1 {
      PaddedSingle(data);
    } else {
      PaddedPair(data);
    }
  }

  lemma ShortPadding()
    ensures Equals(1) == "=" && Equals(2) == "=="
  {
    assert Equals(1) == "=" + Equals(0);
    assert Equals(2) == "=" + Equals(1);
  }

  lemma PaddedSingle(data: seq<byte>)
    requires |data| == 1
    ensures Encode(data) == Unpadded(data)[..2] + "=="
  {
  }

  lemma PaddedPair(data: seq<byte>)
    requires |data| == 2
    ensures Encode(data) == Unpadded(data)[..3] + "="
  {
  }

  lemma {:induction false} UnpaddedAppend(x: seq<byte>, y: seq<byte>)
    requires |x| % 3 == 0
    ensures Unpadded(x + y) == Unpadded(x) + Unpadded(y)
    decreases |x|
  {
    if |x| > 0 {
      var q := Quantum(x[0], x[1], x[2]);
      assert (x + y)[3..] == x[3..] + y;
      assert (x + y)[0] == x[0] && (x + y)[1] == x[1] && (x + y)[2] == x[2];
      assert Unpadded(x + y) == q + Unpadded(x[3..] + y);
      UnpaddedAppend(x[3..], y);
      assert Unpadded(x) == q + Unpadded(x[3..]);
    } else {
      assert x + y == y;
    }
  }

  /** One pass of the encoder's loop reads the group at `i0`, zero-filled past the end. */
  lemma GroupStep(data: seq<byte>, i0: nat, i: nat, a: byte, b: byte, c: byte)
    requires i0 % 3 == 0 && i0 < |data| && i == if i0 + 3 <= |data| then i0 + 3 else |data|
    requires a == data[i0]
    requires b == if i0 + 1 < |data| then data[i0 + 1] else 0
    requires c == if i0 + 2 < |data| then data[i0 + 2] else 0
    ensures Unpadded(data[..i]) == Unpadded(data[..i0]) + Quantum(a, b, c)
  {
    UnpaddedAppend(data[..i0], data[i0..i]);
    assert data[..i0] + data[i0..i] == data[..i];
  }

  /** 4 * ceil(n / 3) symbols: the smallest multiple of four holding n octets. */
  lemma EncodedLength(n: nat)
    ensures var length := 4 * ((n + 2) / 3);
      length % 4 == 0 && length / 4 * 3 - 3 < n <= length / 4 * 3
  {
    var q := (n + 2) / 3;
    assert 3 * q <= n + 2 < 3 * q + 3;
    assert (4 * q) / 4 == q;
  }

  /** The input cursor moves one group on; the output cursor four symbols. */
  lemma Advance(i0: nat, n: nat)
    requires i0 % 3 == 0 && i0 < n
    ensures var i := if i0 + 3 <= n then i0 + 3 else n;
      (i % 3 == 0 || i == n) && 4 * ((i + 2) / 3) == 4 * ((i0 + 2) / 3) + 4 <= 4 * ((n + 2) / 3)
  {
    var q := i0 / 3;
    assert i0 == 3 * q && (i0 + 2) / 3 == q;
    assert (n + 2) / 3 >= q + 1;
    if i0 + 3 <= n {
      assert (i0 + 3) % 3 == 0 && (i0 + 3 + 2) / 3 == q + 1;
    } else {
      assert (n + 2) / 3 == q + 1;
    }
  }

  /** `i < input_length ? data[i++] : 0`: the next octet, zero past the end. */
  method NextOctet(data: seq<byte>, i: nat) returns (octet: byte, next: nat)
    requires i <= |data|
    ensures i < |data| ==> octet == data[i] && next == i + 1
    ensures i == |data| ==> octet == 0 && next == i
  {
    if i < |data| {
      octet, next := data[i], i + 1;
    } else {
      octet, next := 0, i;
    }
  }

  /**
   * IMVWebServer.cpp `base64_encode`: returns the buffer and
   * `*output_length`. The buffer holds the RFC 4648 encoding followed by
   * a NUL; the length is 4 * ceil(n / 3).
   */
  method Base64Encode(data: seq<byte>) returns (encoded: array<char>, outputLength: nat)
    ensures fresh(encoded)
    ensures encoded.Length == outputLength + 1
    ensures encoded[..outputLength] == Encode(data)
    ensures encoded[outputLength] == '\0'
    ensures outputLength % 4 == 0 && outputLength / 4 * 3 - 3 < |data| <= outputLength / 4 * 3
  {
    outputLength := 4 * ((|data| + 2) / 3);
    encoded := new char[outputLength + 1];
    EncodeGroups(data, encoded);
    var pad := ModTable[|data| % 3];
    PadEnd(encoded, outputLength, pad);
    EncodeIsPaddedUnpadded(data);
    encoded[outputLength] := '\0';
    EncodedLength(|data|);
  }

  /** The encoder's first loop: every group, zero-filled, into `encoded`. */
  method EncodeGroups(data: seq<byte>, encoded: array<char>)
    requires encoded.Length > 4 * ((|data| + 2) / 3)
    modifies encoded
    ensures encoded[..4 * ((|data| + 2) / 3)] == Unpadded(data)
    ensures encoded[4 * ((|data| + 2) / 3)..] == old(encoded[4 * ((|data| + 2) / 3)..])
  {
    var i, j := 0, 0;
    while i < |data|
      invariant 0 <= i <= |data| && (i % 3 == 0 || i == |data|)
      invariant j == 4 * ((i + 2) / 3) <= 4 * ((|data| + 2) / 3)
      invariant encoded[..j] == Unpadded(data[..i])
      invariant encoded[j..] == old(encoded[j..])
      decreases |data| - i
    {
      ghost var i0 := i;
      var octetA, octetB, octetC;
      octetA, i := NextOctet(data, i);
      octetB, i := NextOctet(data, i);
      octetC, i := NextOctet(data, i);
      var triple := Triple(octetA, octetB, octetC);
      GroupStep(data, i0, i, octetA, octetB, octetC);
      Advance(i0, |data|);
      ghost var rest := encoded[j + 4..];
      assert rest == old(encoded[j..])[4..];
      WriteQuantum(encoded, j, triple);
      assert encoded[j + 4..] == old(encoded[j + 4..]);
      j := j + 4;
    }
    assert data[..i] == data;
  }

  /** The four symbols of `triple`, looked up in `encoding_table`, at `j`. */
  method WriteQuantum(encoded: array<char>, j: nat, triple: nat)
    requires j + 4 <= encoded.Length
    modifies encoded
    ensures encoded[..j + 4] == old(encoded[..j]) + Symbols(triple, 4)
    ensures encoded[j + 4..] == old(encoded[j + 4..])
  {
    SymbolsOfGroup(triple);
    TableIsAlphabet(Bits(triple, 3));
    TableIsAlphabet(Bits(triple, 2));
    TableIsAlphabet(Bits(triple, 1));
    TableIsAlphabet(Bits(triple, 0));
    encoded[j] := EncodingTable[Bits(triple, 3)];
    encoded[j + 1] := EncodingTable[Bits(triple, 2)];
    encoded[j + 2] := EncodingTable[Bits(triple, 1)];
    encoded[j + 3] := EncodingTable[Bits(triple, 0)];
  }

  /** The encoder's second loop: the last `pad` symbols become `=`. */
  method PadEnd(encoded: array<char>, length: nat, pad: nat)
    requires pad <= length < encoded.Length
    modifies encoded
    ensures encoded[..length] == old(encoded[..length - pad]) + Equals(pad)
    ensures encoded[length..] == old(encoded[length..])
  {
    ghost var raw := encoded[..length];
    for k := 0 to pad
      invariant encoded[..length] == raw[..length - k] + Equals(k)
      invariant encoded[length..] == old(encoded[length..])
    {
      encoded[length - 1 - k] := '=';
      assert raw[..length - k] == raw[..length - (k + 1)] + [raw[length - 1 - k]];
    }
  }
}
