/** PBKDF2 as section 5.2 of RFC 8018 defines it, and the buffer-reusing loop that
    computes it. The pseudorandom function, HMAC keyed with the password, is a
    parameter. */
module Pbkdf2 {
  type Octets = seq<bv8>

  type Prf = Octets -> Octets

  ghost predicate HasLength(prf: Prf, hLen: nat) {
    hLen > 0 && forall m :: |prf(m)| == hLen
  }

  // ---- RFC 8018, section 5.2 ----

  /** INT(i): four octets, most significant first. */
  function Int(i: nat): (b: Octets)
    ensures |b| == 4
  {
    [Low(i / 0x100_0000), Low(i / 0x1_0000), Low(i / 0x100), Low(i)]
  }

  function Low(i: nat): bv8 {
    (i % 0x100) as bv8
  }

  /** INT of a number written in base 256 is its four digits, most significant first. */
  lemma IntIs(a: nat, b: nat, c: nat, d: nat)
    requires a < 256 && b < 256 && c < 256 && d < 256
    ensures Int(a * 16_777_216 + b * 65_536 + c * 256 + d) == [a as bv8, b as bv8, c as bv8, d as bv8]
  {
    Digits(a, b, c, d);
  }

  lemma Digits(a: nat, b: nat, c: nat, d: nat)
    requires a < 256 && b < 256 && c < 256 && d < 256
    ensures var i := a * 16_777_216 + b * 65_536 + c * 256 + d;
            i / 0x100_0000 % 0x100 == a && i / 0x1_0000 % 0x100 == b && i / 0x100 % 0x100 == c && i % 0x100 == d
  {
    var i := a * 16_777_216 + b * 65_536 + c * 256 + d;
    Above24(i, a, b * 65_536 + c * 256 + d);
    Above16(i, a * 256 + b, c * 256 + d);
    Above8(i, a * 65_536 + b * 256 + c, d);
    LastDigit(0, a);
    LastDigit(a, b);
    LastDigit(a * 256 + b, c);
    LastDigit(a * 65_536 + b * 256 + c, d);
  }

  lemma Above24(i: nat, q: nat, r: nat)
    requires i == q * 0x100_0000 + r && r < 0x100_0000
    ensures i / 0x100_0000 == q
  {}

  lemma Above16(i: nat, q: nat, r: nat)
    requires i == q * 0x1_0000 + r && r < 0x1_0000
    ensures i / 0x1_0000 == q
  {}

  lemma Above8(i: nat, q: nat, r: nat)
    requires i == q * 0x100 + r && r < 0x100
    ensures i / 0x100 == q
  {}

  lemma LastDigit(q: nat, d: nat)
    requires d < 256
    ensures (q * 256 + d) % 0x100 == d
  {}

  /** U_n of block i: U_1 = PRF(S || INT(i)), U_n = PRF(U_(n-1)). */
  function U(prf: Prf, salt: Octets, i: nat, n: nat): Octets
    requires n > 0
    decreases n
  {
    if n == 1 then prf(salt + Int(i)) else prf(U(prf, salt, i, n - 1))
  }

  function Xor(a: Octets, b: Octets): (r: Octets)
    requires |a| == |b|
    ensures |r| == |a|
  {
    seq(|a|, j requires 0 <= j < |a| => a[j] ^ b[j])
  }

  /** T_i = F(P, S, c, i): the exclusive-or of U_1 to U_c. */
  function T(prf: Prf, hLen: nat, salt: Octets, c: nat, i: nat): (t: Octets)
    requires HasLength(prf, hLen) && c > 0
    ensures |t| == hLen
    decreases c
  {
    if c == 1 then U(prf, salt, i, 1) else Xor(T(prf, hLen, salt, c - 1, i), U(prf, salt, i, c))
  }

  /** T_1 || T_2 || ... || T_l. */
  function Blocks(prf: Prf, hLen: nat, salt: Octets, c: nat, l: nat): (out: Octets)
    requires HasLength(prf, hLen) && c > 0
    ensures |out| == l * hLen
    decreases l
  {
    if l == 0 then [] else Blocks(prf, hLen, salt, c, l - 1) + T(prf, hLen, salt, c, l)
  }

  function CeilDiv(a: nat, b: nat): (q: nat)
    requires b > 0
    ensures q * b >= a && (q - 1) * b < a
  {
    var q := (a + b - 1) / b;
    Ceiling(a, b);
    q
  }

  lemma Ceiling(a: nat, b: nat)
    requires b > 0
    ensures var q := (a + b - 1) / b; q * b >= a && (q - 1) * b < a
  {
    var q := (a + b - 1) / b;
    assert a + b - 1 == q * b + (a + b - 1) % b;
    assert (q - 1) * b == q * b - b;
  }

  /** DK: the first dkLen octets. */
  function Key(prf: Prf, hLen: nat, salt: Octets, c: nat, dkLen: nat): (dk: Octets)
    requires HasLength(prf, hLen) && c > 0
    ensures |dk| == dkLen
  {
    Blocks(prf, hLen, salt, c, CeilDiv(dkLen, hLen))[..dkLen]
  }

  /** A shorter key is a prefix of a longer one. */
  lemma NoShorter(l: nat, m: nat, hLen: nat)
    requires l <= m
    ensures l * hLen <= m * hLen
  {}

  lemma OneBlockMore(prf: Prf, hLen: nat, salt: Octets, c: nat, m: nat)
    requires HasLength(prf, hLen) && c > 0 && m > 0
    ensures Blocks(prf, hLen, salt, c, m) == Blocks(prf, hLen, salt, c, m - 1) + T(prf, hLen, salt, c, m)
  {}

  lemma PrefixOfPrefix(p: Octets, q: Octets, n: nat)
    requires n <= |p|
    ensures (p + q)[..n] == p[..n]
  {}

  lemma {:induction false} MoreBlocks(prf: Prf, hLen: nat, salt: Octets, c: nat, l: nat, m: nat)
    requires HasLength(prf, hLen) && c > 0 && l <= m
    ensures l * hLen <= m * hLen && Blocks(prf, hLen, salt, c, m)[..l * hLen] == Blocks(prf, hLen, salt, c, l)
    decreases m
  {
    hide HasLength, Blocks, T;
    NoShorter(l, m, hLen);
    if l < m {
      MoreBlocks(prf, hLen, salt, c, l, m - 1);
      OneBlockMore(prf, hLen, salt, c, m);
      PrefixOfPrefix(Blocks(prf, hLen, salt, c, m - 1), T(prf, hLen, salt, c, m), l * hLen);
    }
  }

  lemma Times(a: nat, b: nat, c: nat)
    requires a <= b
    ensures a * c <= b * c
  {}

  lemma KeyIsPrefix(prf: Prf, hLen: nat, salt: Octets, c: nat, short: nat, long: nat)
    requires HasLength(prf, hLen) && c > 0 && short <= long
    ensures Key(prf, hLen, salt, c, long)[..short] == Key(prf, hLen, salt, c, short)
  {
    var l, m := CeilDiv(short, hLen), CeilDiv(long, hLen);
    if m < l { Times(m, l - 1, hLen); }
    MoreBlocks(prf, hLen, salt, c, l, m);
    assert Blocks(prf, hLen, salt, c, m)[..short] == Blocks(prf, hLen, salt, c, m)[..l * hLen][..short];
  }

  // ---- Octet by octet ----

  /** The pseudorandom function applied n times. */
  function Applied(prf: Prf, m: Octets, n: nat): Octets
    decreases n
  {
    if n == 0 then m else prf(Applied(prf, m, n - 1))
  }

  /** The exclusive-or of the k-th octets after one, two, and up to c applications. */
  function XorAt(prf: Prf, hLen: nat, m: Octets, c: nat, k: nat): bv8
    requires HasLength(prf, hLen) && c > 0 && k < hLen
    decreases c
  {
    assert |Applied(prf, m, c)| == hLen;
    if c == 1 then Applied(prf, m, 1)[k] else XorAt(prf, hLen, m, c - 1, k) ^ Applied(prf, m, c)[k]
  }

  lemma {:induction false} UIsApplied(prf: Prf, salt: Octets, i: nat, n: nat)
    requires n > 0
    ensures U(prf, salt, i, n) == Applied(prf, salt + Int(i), n)
    decreases n
  {
    hide Int;
    if n > 1 { UIsApplied(prf, salt, i, n - 1); } else { assert Applied(prf, salt + Int(i), 0) == salt + Int(i); }
  }

  lemma {:induction false} TOctet(prf: Prf, hLen: nat, salt: Octets, c: nat, i: nat, k: nat)
    requires HasLength(prf, hLen) && c > 0 && k < hLen
    ensures T(prf, hLen, salt, c, i)[k] == XorAt(prf, hLen, salt + Int(i), c, k)
    decreases c
  {
    UIsApplied(prf, salt, i, c);
    hide Int;
    if c > 1 { TOctet(prf, hLen, salt, c - 1, i, k); }
  }

  lemma {:induction false} BlockOctet(prf: Prf, hLen: nat, salt: Octets, c: nat, l: nat, i: nat, k: nat)
    requires HasLength(prf, hLen) && c > 0 && k < hLen && 1 <= i <= l
    ensures 0 <= (i - 1) * hLen + k < l * hLen
    ensures Blocks(prf, hLen, salt, c, l)[(i - 1) * hLen + k] == T(prf, hLen, salt, c, i)[k]
    decreases l
  {
    hide HasLength, T, Blocks;
    OneBlockMore(prf, hLen, salt, c, l);
    NoShorter(i - 1, l - 1, hLen);
    assert l * hLen == (l - 1) * hLen + hLen;
    if i < l { BlockOctet(prf, hLen, salt, c, l - 1, i, k); }
  }

  /** Octet k of the i-th block of the key is the exclusive-or over c applications, the
      first to the salt with the block's number. */
  lemma KeyOctet(prf: Prf, hLen: nat, salt: Octets, c: nat, dkLen: nat, i: nat, k: nat)
    requires HasLength(prf, hLen) && c > 0 && i >= 1 && k < hLen && (i - 1) * hLen + k < dkLen
    ensures 0 <= (i - 1) * hLen + k && Key(prf, hLen, salt, c, dkLen)[(i - 1) * hLen + k] == XorAt(prf, hLen, salt + Int(i), c, k)
  {
    hide HasLength, Blocks, T;
    var l := CeilDiv(dkLen, hLen);
    if i > l { NoShorter(l, i - 1, hLen); }
    BlockOctet(prf, hLen, salt, c, l, i, k);
    TOctet(prf, hLen, salt, c, i, k);
  }

  // ---- The implementation ----

  /** prf.Sum into a buffer's own storage. */
  method SumInto(prf: Prf, hLen: nat, message: Octets, buffer: array<bv8>)
    requires HasLength(prf, hLen) && buffer.Length == hLen
    modifies buffer
    ensures buffer[..] == prf(message)
  {
    var digest := prf(message);
    var j := 0;
    while j < hLen
      invariant 0 <= j <= hLen && buffer[..j] == digest[..j]
    {
      buffer[j] := digest[j];
      j := j + 1;
    }
    assert digest[..j] == digest && buffer[..j] == buffer[..];
  }

  /** The inner loop over the octets of u. */
  method XorInto(u: array<bv8>, t: array<bv8>)
    requires u.Length == t.Length && u != t
    modifies u
    ensures u[..] == Xor(old(u[..]), t[..])
  {
    var j := 0;
    while j < u.Length
      invariant 0 <= j <= u.Length
      invariant forall k :: 0 <= k < j ==> u[k] == old(u[k]) ^ t[k]
      invariant forall k :: j <= k < u.Length ==> u[k] == old(u[k])
    {
      u[j] := u[j] ^ t[j];
      j := j + 1;
    }
  }

  /** One block: t and u are buffers the iterations reuse. */
  method DeriveBlock(prf: Prf, hLen: nat, salt: Octets, iterations: int, i: nat, t: array<bv8>, u: array<bv8>)
    requires HasLength(prf, hLen) && t.Length == hLen && u.Length == hLen && t != u
    requires t[..] == U(prf, salt, i, 1)
    modifies t, u
    ensures u[..] == T(prf, hLen, salt, if iterations < 1 then 1 else iterations, i)
  {
    hide HasLength;
    ghost var c: nat := if iterations < 1 then 1 else iterations;
    var j := 0;
    while j < hLen
      invariant 0 <= j <= hLen && t[..] == U(prf, salt, i, 1) && u[..j] == t[..j]
    {
      u[j] := t[j];
      j := j + 1;
    }
    assert u[..j] == u[..] && t[..j] == t[..];
    var n := 1;
    while n < iterations
      invariant 1 <= n <= c
      invariant t[..] == U(prf, salt, i, n) && u[..] == T(prf, hLen, salt, n, i)
    {
      SumInto(prf, hLen, t[..], t);
      XorInto(u, t);
      n := n + 1;
    }
  }

  /** pbkdf2SHA256. An iteration count below one counts as one. */
  method Derive(prf: Prf, hLen: nat, salt: Octets, iterations: int, keyLen: nat) returns (key: Octets)
    requires HasLength(prf, hLen)
    ensures key == Key(prf, hLen, salt, if iterations < 1 then 1 else iterations, keyLen)
  {
    hide Low, T, U;
    ghost var c: nat := if iterations < 1 then 1 else iterations;
    var numBlocks := CeilDiv(keyLen, hLen);
    var out: Octets := [];
    var block := new bv8[4];
    var i := 1;
    while i <= numBlocks
      invariant 1 <= i <= numBlocks + 1
      invariant out == Blocks(prf, hLen, salt, c, i - 1)
    {
      block[0], block[1], block[2], block[3] := Low(i / 0x100_0000), Low(i / 0x1_0000), Low(i / 0x100), Low(i);
      assert block[..] == Int(i);
      var t, u := new bv8[hLen], new bv8[hLen];
      SumInto(prf, hLen, salt + block[..], t);
      assert t[..] == U(prf, salt, i, 1) by { FirstU(prf, salt, i); }
      DeriveBlock(prf, hLen, salt, iterations, i, t, u);
      out := out + u[..];
      i := i + 1;
    }
    key := out[..keyLen];
  }

  lemma FirstU(prf: Prf, salt: Octets, i: nat)
    ensures U(prf, salt, i, 1) == prf(salt + Int(i))
  {}
}
