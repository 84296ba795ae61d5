/** How the router spreads keys over the shards: what its hash takes from every byte. */
module Hashing {
  import opened ByteStrings
  import opened Router

  /* ---------------- two shards: the parity of the bytes ---------------- */

  function Sum(s: Bytes): int {
    if s == [] then 0 else Sum(s[..|s| - 1]) + s[|s| - 1] as int
  }

  predicate Odd(x: bv64) {
    x & 1 == 1
  }

  lemma OddWord(n: int)
    requires 0 <= n < 0x1_0000_0000_0000_0000
    ensures Odd(n as bv64) <==> n % 2 == 1
  {
  }

  lemma WordOfNumber(x: bv64)
    ensures Number(x) as bv64 == x
  {
  }

  lemma OddNumber(x: bv64)
    ensures Odd(x) <==> Number(x) % 2 == 1
  {
    hide *;
    WordOfNumber(x);
    OddWord(Number(x));
  }

  lemma OddMix(h: bv64, c: byte)
    ensures Odd(Mix(h, c)) <==> (Odd(h) <==> c % 2 == 0)
  {
    hide Odd, MixWord;
    OddWord(c as int);
    OddProduct(h, c as bv64);
  }

  lemma OddProduct(h: bv64, c: bv64)
    ensures Odd(MixWord(h, c)) <==> (Odd(h) != Odd(c))
  {
  }

  lemma SeedIsOdd()
    ensures Odd(HASH_SEED)
  {
  }

  lemma {:induction false} HashParity(s: Bytes)
    ensures Odd(Hash(s)) <==> Sum(s) % 2 == 0
  {
    hide Odd, Mix, HASH_SEED;
    if s == [] {
      SeedIsOdd();
    } else {
      HashParity(s[..|s| - 1]);
      OddMix(Hash(s[..|s| - 1]), s[|s| - 1]);
    }
  }

  /** Of two shards a key goes to the second exactly when its bytes add up to an even number. */
  lemma TwoShards(key: Bytes)
    ensures ShardFor(key, 2) == (1 + Sum(key)) % 2
  {
    hide Odd, Hash, Number;
    HashParity(key);
    OddNumber(Hash(key));
  }

  /* ---------------- 256 shards: every byte counts ---------------- */

  function Digit(n: int, p: int): bv8
    requires p > 0
  {
    if (n / p) % 2 == 1 then 1 else 0
  }

  /** The low eight binary digits of a number. */
  function Octet(n: int): bv8 {
    (Digit(n, 128) << 7) | (Digit(n, 64) << 6) | (Digit(n, 32) << 5) | (Digit(n, 16) << 4)
    | (Digit(n, 8) << 3) | (Digit(n, 4) << 2) | (Digit(n, 2) << 1) | Digit(n, 1)
  }

  function Low(x: bv64): bv8 {
    (x & 255) as bv8
  }

  lemma LowOctet(n: int)
    requires 0 <= n < 0x1_0000_0000_0000_0000
    ensures Low(n as bv64) == Octet(n)
  {
  }

  lemma SameDivision(p: int, q: int, t: int, k: int, s: int)
    requires p > 0 && p * q + t == p * k + s && 0 <= t < p && 0 <= s < p
    ensures q == k
  {
    assert p * (q - k) == s - t;
    if q > k { AtLeast(p, q - k); } else if q < k { AtLeast(p, k - q); }
  }

  lemma AtLeast(p: int, x: int)
    requires p > 0 && x >= 1
    ensures p * x >= p
  {
  }

  lemma Divides(n: int, p: int)
    requires p > 0
    ensures n == p * (n / p) + n % p && 0 <= n % p < p
  {
  }

  lemma Quotient(p: int, k: int, r: int)
    requires p > 0
    ensures (p * k + r) / p == k + r / p
  {
    Divides(r, p);
    Divides(p * k + r, p);
    assert p * (k + r / p) == p * k + p * (r / p);
    SameDivision(p, (p * k + r) / p, (p * k + r) % p, k + r / p, r % p);
  }

  lemma EvenProduct(e: int, q: int)
    requires e % 2 == 0
    ensures (e * q) % 2 == 0
  {
    assert e * q == 2 * ((e / 2) * q);
  }

  lemma EvenSum(a: int, b: int)
    requires a % 2 == 0
    ensures (a + b) % 2 == b % 2
  {
  }

  lemma DigitPeriod(q: int, r: int, p: int, e: int)
    requires p > 0 && p * e == 256 && e % 2 == 0
    ensures Digit(256 * q + r, p) == Digit(r, p)
  {
    assert 256 * q + r == p * (e * q) + r;
    Quotient(p, e * q, r);
    EvenProduct(e, q);
    EvenSum(e * q, r / p);
  }

  lemma OctetPeriod(n: int)
    ensures Octet(n) == Octet(n % 256)
  {
    hide Digit;
    var q, r := n / 256, n % 256;
    DigitPeriod(q, r, 1, 256);
    DigitPeriod(q, r, 2, 128);
    DigitPeriod(q, r, 4, 64);
    DigitPeriod(q, r, 8, 32);
    DigitPeriod(q, r, 16, 16);
    DigitPeriod(q, r, 32, 8);
    DigitPeriod(q, r, 64, 4);
    DigitPeriod(q, r, 128, 2);
  }

  lemma Halved(a: int, p: int)
    requires p > 0
    ensures a / p == 2 * (a / (2 * p)) + (a / p) % 2
  {
    var q := a / p;
    Divides(a, p);
    Divides(a, 2 * p);
    assert a == 2 * p * (q / 2) + (p * (q % 2) + a % p) by { assert p * (2 * (q / 2) + q % 2) == 2 * p * (q / 2) + p * (q % 2); }
    SameDivision(2 * p, a / (2 * p), a % (2 * p), q / 2, p * (q % 2) + a % p);
  }

  lemma NextDigit(a: int, b: int, p: int)
    requires p > 0 && a / (2 * p) == b / (2 * p) && Digit(a, p) == Digit(b, p)
    ensures a / p == b / p
  {
    Halved(a, p);
    Halved(b, p);
  }

  lemma OctetHolds(n: int)
    ensures Octet(n) & 1 == Digit(n, 1) && (Octet(n) >> 1) & 1 == Digit(n, 2) && (Octet(n) >> 2) & 1 == Digit(n, 4)
    ensures (Octet(n) >> 3) & 1 == Digit(n, 8) && (Octet(n) >> 4) & 1 == Digit(n, 16) && (Octet(n) >> 5) & 1 == Digit(n, 32)
    ensures (Octet(n) >> 6) & 1 == Digit(n, 64) && (Octet(n) >> 7) & 1 == Digit(n, 128)
  {
  }

  /** Eight binary digits tell bytes apart. */
  lemma OctetSeparates(a: int, b: int)
    requires 0 <= a < 256 && 0 <= b < 256 && Octet(a) == Octet(b)
    ensures a == b
  {
    hide *;
    OctetHolds(a);
    OctetHolds(b);
    NextDigit(a, b, 128);
    NextDigit(a, b, 64);
    NextDigit(a, b, 32);
    NextDigit(a, b, 16);
    NextDigit(a, b, 8);
    NextDigit(a, b, 4);
    NextDigit(a, b, 2);
    NextDigit(a, b, 1);
  }

  function LowOf(c: byte): bv8 {
    Low(c as bv64)
  }

  lemma LowByte(c: byte)
    ensures LowOf(c) == Octet(c as int)
  {
    hide Low, Octet;
    LowOctet(c as int);
  }

  lemma LowNumber(x: bv64)
    ensures Low(x) == Octet(Number(x) % 256)
  {
    hide *;
    WordOfNumber(x);
    LowOctet(Number(x));
    OctetPeriod(Number(x));
  }

  function Times(u: bv64): bv64 {
    u * HASH_PRIME
  }

  lemma MixWordIs(h: bv64, c: bv64)
    ensures MixWord(h, c) == Times(h ^ c)
  {
  }

  /** 179 is the low byte of the multiplier, 123 its inverse. */
  function Scaled(y: bv8): bv8 {
    y * 179
  }

  lemma LowTimes(u: bv64)
    ensures Low(Times(u)) == Scaled(Low(u))
  {
  }

  lemma LowXor(h: bv64, c: bv64)
    ensures Low(h ^ c) == Low(h) ^ Low(c)
  {
  }

  lemma LowProduct(h: bv64, c: bv64)
    ensures Low(MixWord(h, c)) == Scale(Low(h), Low(c))
  {
    hide Low, Times, MixWord, Scaled;
    MixWordIs(h, c);
    LowTimes(h ^ c);
    LowXor(h, c);
  }

  /** The hash step on low bytes. */
  function Scale(a: bv8, b: bv8): bv8 {
    Scaled(a ^ b)
  }

  function Unscale(y: bv8, b: bv8): bv8 {
    (y * 123) ^ b
  }

  lemma ScaleBack(a: bv8, b: bv8)
    ensures Unscale(Scale(a, b), b) == a && Unscale(Scale(a, b), a) == b
  {
  }

  lemma ScaleSeparates(a: bv8, b: bv8, c: bv8, d: bv8)
    requires Scale(a, b) == Scale(c, d)
    ensures a == c ==> b == d
    ensures b == d ==> a == c
  {
    hide *;
    ScaleBack(a, b);
    ScaleBack(c, d);
  }

  lemma MixScales(h: bv64, c: byte)
    ensures Low(Mix(h, c)) == Scale(Low(h), LowOf(c))
  {
    hide Low, Scale, MixWord;
    LowProduct(h, c as bv64);
  }

  lemma LowMix(h: bv64, c: byte, k: bv64, d: byte)
    requires Low(Mix(h, c)) == Low(Mix(k, d))
    ensures h == k ==> c == d
    ensures c == d ==> Low(h) == Low(k)
  {
    hide *;
    MixScales(h, c);
    MixScales(k, d);
    ScaleSeparates(Low(h), LowOf(c), Low(k), LowOf(d));
    if LowOf(c) == LowOf(d) {
      LowByte(c);
      LowByte(d);
      OctetSeparates(c as int, d as int);
    }
  }

  lemma {:induction false} LowHash(u: Bytes, c: byte, d: byte, v: Bytes)
    requires c != d
    ensures Low(Hash(u + [c] + v)) != Low(Hash(u + [d] + v))
    decreases v
  {
    hide Low, Mix;
    var s, t := u + [c] + v, u + [d] + v;
    if v == [] {
      assert s[..|s| - 1] == u && t[..|t| - 1] == u;
      if Low(Hash(s)) == Low(Hash(t)) { LowMix(Hash(u), c, Hash(u), d); }
    } else {
      var w, e := v[..|v| - 1], v[|v| - 1];
      assert s[..|s| - 1] == u + [c] + w && t[..|t| - 1] == u + [d] + w;
      LowHash(u, c, d, w);
      if Low(Hash(s)) == Low(Hash(t)) { LowMix(Hash(u + [c] + w), e, Hash(u + [d] + w), e); }
    }
  }

  /** Of 256 shards, keys that differ in a single byte go to different ones. */
  lemma EveryByteCounts(u: Bytes, c: byte, d: byte, v: Bytes)
    ensures ShardFor(u + [c] + v, 256) == ShardFor(u + [d] + v, 256) <==> c == d
  {
    hide Hash, Number, Low;
    if c != d {
      LowHash(u, c, d, v);
      LowNumber(Hash(u + [c] + v));
      LowNumber(Hash(u + [d] + v));
    }
  }
}
