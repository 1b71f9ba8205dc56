/** The 64-bit FNV-1a loop of `stable_hash` (bt-core, types.rs), on integers modulo 2 to the 64th. */
module Fnv {
  type Byte = n: int | 0 <= n < 256

  const MODULUS := 0x1_0000_0000_0000_0000
  const OFFSET_BASIS := 0xcbf2_9ce4_8422_2325
  const PRIME := 0x100_0000_01b3

  /** The inverse of the prime modulo 2 to the 64th. */
  const PRIME_INVERSE := 0xce96_5057_aff6_957b
  const WRAPS := 0xce_9650_590f

  /** Bitwise exclusive or. */
  function Xor(a: nat, b: nat): nat {
    if a == 0 then b else if b == 0 then a else 2 * Xor(a / 2, b / 2) + (a % 2 + b % 2) % 2
  }

  function HashByte(hash: nat, byte: Byte): nat {
    (Xor(hash, byte) * PRIME) % MODULUS
  }

  function HashFrom(hash: nat, bytes: seq<Byte>): nat
    decreases |bytes|
  {
    if bytes == [] then hash else HashFrom(HashByte(hash, bytes[0]), bytes[1..])
  }

  function Hash(bytes: seq<Byte>): nat {
    HashFrom(OFFSET_BASIS, bytes)
  }

  method StableHash(bytes: seq<Byte>) returns (hash: nat)
    ensures hash == Hash(bytes) && hash < MODULUS
  {
    hash := OFFSET_BASIS;
    assert bytes[0..] == bytes;
    for i := 0 to |bytes|
      invariant hash < MODULUS
      invariant HashFrom(hash, bytes[i..]) == Hash(bytes)
    {
      hash := Xor(hash, bytes[i]);
      hash := (hash * PRIME) % MODULUS;
    }
  }

  lemma XorOfA()
    ensures Xor(0xcbf29ce484222325, 0x61) == 0xcbf29ce484222344
  {
    assert Xor(0x197e539c9084446, 0) == 0x197e539c9084446;
    XorDigits(0x32fca739210888c, 0x1);
    assert Xor(0x32fca739210888c, 0x1) == 0x32fca739210888d;
    XorDigits(0x65f94e724211119, 0x3);
    assert Xor(0x65f94e724211119, 0x3) == 0x65f94e72421111a;
    XorDigits(0xcbf29ce48422232, 0x6);
    assert Xor(0xcbf29ce48422232, 0x6) == 0xcbf29ce48422234;
    XorDigits(0x197e539c90844464, 0xc);
    assert Xor(0x197e539c90844464, 0xc) == 0x197e539c90844468;
    XorDigits(0x32fca739210888c9, 0x18);
    assert Xor(0x32fca739210888c9, 0x18) == 0x32fca739210888d1;
    XorDigits(0x65f94e7242111192, 0x30);
    assert Xor(0x65f94e7242111192, 0x30) == 0x65f94e72421111a2;
    XorDigits(0xcbf29ce484222325, 0x61);
    assert Xor(0xcbf29ce484222325, 0x61) == 0xcbf29ce484222344;
  }

  /** The published hashes of the empty text and of `a`. */
  lemma KnownHashes()
    ensures Hash([]) == 0xcbf29ce484222325 && Hash(['a' as int]) == 0xaf63dc4c8601ec8c
  {
    hide Xor;
    XorOfA();
    assert 0xcbf29ce484222344 * PRIME == 0xcbf29ce5de * MODULUS + 0xaf63dc4c8601ec8c;
    var text: seq<Byte> := ['a' as int];
    assert text[0] == 0x61 && text[1..] == [];
    assert HashByte(OFFSET_BASIS, 0x61) == 0xaf63dc4c8601ec8c;
    assert HashFrom(OFFSET_BASIS, text) == HashFrom(HashByte(OFFSET_BASIS, text[0]), text[1..]);
  }

  // ---- Every byte step is a bijection ----

  lemma XorDigits(a: nat, b: nat)
    ensures Xor(a, b) / 2 == Xor(a / 2, b / 2) && Xor(a, b) % 2 == (a % 2 + b % 2) % 2
  {
    if a == 0 {
      assert Xor(0, b) == b && Xor(0, b / 2) == b / 2;
    } else if b == 0 {
      assert Xor(a, 0) == a && Xor(a / 2, 0) == a / 2;
    } else {
      assert Xor(a, b) == 2 * Xor(a / 2, b / 2) + (a % 2 + b % 2) % 2;
    }
  }

  lemma {:induction false} XorUndoes(a: nat, b: nat)
    ensures Xor(Xor(a, b), b) == a
    decreases a + b
  {
    if a + b > 0 {
      hide Xor;
      XorUndoes(a / 2, b / 2);
      XorDigits(a, b);
      XorDigits(Xor(a, b), b);
      Parity(a % 2, b % 2);
    }
  }

  lemma Parity(m: nat, n: nat)
    requires m < 2 && n < 2
    ensures ((m + n) % 2 + n) % 2 == m
  {
  }

  lemma {:induction false} XorBound(a: nat, b: nat, bound: nat, bits: nat)
    requires a < bound && b < bound && bound == Pow2(bits)
    ensures Xor(a, b) < bound
  {
    if bits > 0 && a != 0 && b != 0 { XorBound(a / 2, b / 2, Pow2(bits - 1), bits - 1); }
  }

  function Pow2(n: nat): nat {
    if n == 0 then 1 else 2 * Pow2(n - 1)
  }

  lemma Pow2Steps(n: nat)
    ensures Pow2(n) == if n == 0 then 1 else 2 * Pow2(n - 1)
  {
  }

  lemma DoubleProduct(x: nat, y: nat)
    ensures 2 * (x * y) == (2 * x) * y
  {
  }

  lemma {:induction false} Pow2Add(a: nat, b: nat)
    ensures Pow2(a + b) == Pow2(a) * Pow2(b)
  {
    hide Pow2;
    Pow2Steps(a);
    if a > 0 {
      Pow2Add(a - 1, b);
      Pow2Steps(a + b);
      DoubleProduct(Pow2(a - 1), Pow2(b));
    }
  }

  lemma ModulusIsPow2()
    ensures Pow2(64) == MODULUS
  {
    assert Pow2(4) == 16 by { assert Pow2(2) == 4 && Pow2(4) == 2 * (2 * Pow2(2)); }
    Pow2Add(4, 4);
    Pow2Add(8, 8);
    Pow2Add(16, 16);
    Pow2Add(32, 32);
  }

  lemma XorStaysBelow(hash: nat, byte: Byte)
    requires hash < MODULUS
    ensures Xor(hash, byte) < MODULUS
  {
    hide Xor, Pow2;
    ModulusIsPow2();
    XorBound(hash, byte, MODULUS, 64);
  }

  /** A factor `p` with inverse `q` modulo `m` can be multiplied away. */
  lemma MulUndone(x: nat, p: nat, q: nat, m: nat, wraps: nat)
    requires x < m && p * q == 1 + wraps * m
    ensures (((x * p) % m) * q) % m == x
  {
    var r, d := (x * p) % m, (x * p) / m;
    assert x * p == d * m + r;
    assert r * q == x * p * q - d * m * q by {
      assert (x * p - d * m) * q == x * p * q - d * m * q;
    }
    assert x * p * q == x + x * wraps * m by {
      assert x * p * q == x * (p * q);
      assert x * (1 + wraps * m) == x + x * (wraps * m);
      assert x * (wraps * m) == x * wraps * m;
    }
    assert d * m * q == (d * q) * m by { Commute(d, m, q); }
    assert r * q == x + (x * wraps - d * q) * m by {
      assert (x * wraps - d * q) * m == x * wraps * m - (d * q) * m;
    }
    Remainder(r * q, x, x * wraps - d * q, m);
  }

  lemma Commute(a: int, b: int, c: int)
    ensures a * b * c == (a * c) * b
  {
    assert a * b * c == a * (b * c);
    assert a * c * b == a * (c * b);
  }

  lemma Remainder(n: nat, x: nat, k: int, m: nat)
    requires x < m && n == x + k * m
    ensures n % m == x
  {
    var q, r := n / m, n % m;
    assert n == q * m + r;
    assert (k - q) * m == r - x by { assert (k - q) * m == k * m - q * m; }
    if k - q >= 1 { Scaled(1, k - q, m); }
    if k - q <= -1 { Scaled(k - q, -1, m); }
  }

  lemma Scaled(a: int, b: int, m: nat)
    requires a <= b
    ensures a * m <= b * m
  {
  }

  function UnhashByte(hash: nat, byte: Byte): nat {
    Xor((hash * PRIME_INVERSE) % MODULUS, byte)
  }

  /** The multiplier is odd, so each byte step is a bijection on 64-bit states. */
  lemma HashByteIsBijective(hash: nat, byte: Byte)
    requires hash < MODULUS
    ensures HashByte(hash, byte) < MODULUS && UnhashByte(HashByte(hash, byte), byte) == hash
    ensures UnhashByte(hash, byte) < MODULUS && HashByte(UnhashByte(hash, byte), byte) == hash
  {
    hide Xor;
    assert PRIME * PRIME_INVERSE == 1 + WRAPS * MODULUS;
    XorStaysBelow(hash, byte);
    MulUndone(Xor(hash, byte), PRIME, PRIME_INVERSE, MODULUS, WRAPS);
    XorUndoes(hash, byte);
    var x := (hash * PRIME_INVERSE) % MODULUS;
    XorUndoes(x, byte);
    XorStaysBelow(x, byte);
    MulUndone(hash, PRIME_INVERSE, PRIME, MODULUS, WRAPS);
  }

  lemma {:induction false} XorCancels(a: nat, b: nat, c: nat)
    requires Xor(a, b) == Xor(a, c)
    ensures b == c
    decreases b + c
  {
    hide Xor;
    if b + c > 0 {
      XorDigits(a, b);
      XorDigits(a, c);
      XorCancels(a / 2, b / 2, c / 2);
      SameDigit(a % 2, b % 2, c % 2);
    }
  }

  lemma SameDigit(l: nat, m: nat, n: nat)
    requires l < 2 && m < 2 && n < 2 && (l + m) % 2 == (l + n) % 2
    ensures m == n
  {
  }

  /** Unequal states stay unequal under any common suffix. */
  lemma {:induction false} SuffixKeepsDifference(h: nat, k: nat, suffix: seq<Byte>)
    requires h < MODULUS && k < MODULUS && h != k
    ensures HashFrom(h, suffix) != HashFrom(k, suffix)
    decreases |suffix|
  {
    hide HashByte, UnhashByte;
    if suffix != [] {
      HashByteIsBijective(h, suffix[0]);
      HashByteIsBijective(k, suffix[0]);
      SuffixKeepsDifference(HashByte(h, suffix[0]), HashByte(k, suffix[0]), suffix[1..]);
    }
  }

  lemma {:induction false} HashFromConcat(h: nat, a: seq<Byte>, b: seq<Byte>)
    requires h < MODULUS
    ensures HashFrom(h, a) < MODULUS && HashFrom(h, a + b) == HashFrom(HashFrom(h, a), b)
    decreases |a|
  {
    if a == [] {
      assert a + b == b;
    } else {
      assert (a + b)[1..] == a[1..] + b;
      HashFromConcat(HashByte(h, a[0]), a[1..], b);
    }
  }

  /** Two inputs of equal length that differ in exactly one byte never hash alike. */
  lemma OneByteApart(prefix: seq<Byte>, a: Byte, b: Byte, suffix: seq<Byte>)
    requires a != b
    ensures Hash(prefix + ([a] + suffix)) != Hash(prefix + ([b] + suffix))
  {
    hide Xor;
    HashFromConcat(OFFSET_BASIS, prefix, [a] + suffix);
    HashFromConcat(OFFSET_BASIS, prefix, [b] + suffix);
    var h := HashFrom(OFFSET_BASIS, prefix);
    assert ([a] + suffix)[1..] == suffix && ([b] + suffix)[1..] == suffix;
    DifferentBytes(h, a, b);
    SuffixKeepsDifference(HashByte(h, a), HashByte(h, b), suffix);
  }

  lemma DifferentBytes(h: nat, a: Byte, b: Byte)
    requires h < MODULUS && a != b
    ensures HashByte(h, a) != HashByte(h, b)
    ensures HashByte(h, a) < MODULUS && HashByte(h, b) < MODULUS
  {
    hide Xor;
    assert PRIME * PRIME_INVERSE == 1 + WRAPS * MODULUS;
    XorStaysBelow(h, a);
    XorStaysBelow(h, b);
    MulUndone(Xor(h, a), PRIME, PRIME_INVERSE, MODULUS, WRAPS);
    MulUndone(Xor(h, b), PRIME, PRIME_INVERSE, MODULUS, WRAPS);
    if HashByte(h, a) == HashByte(h, b) { XorCancels(h, a, b); }
  }
}
