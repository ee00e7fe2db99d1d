/** Stored passwords: PBKDF2 with an abstract pseudorandom function, unpadded base64, and the check
    of a password against its stored form. */
module Passwords {
  import opened Wrappers
  import opened Text

  /** The pseudorandom function: key and message to a digest. */
  type Prf = (Bytes, Bytes) -> Bytes

  ghost predicate HasSize(prf: Prf, size: nat) {
    size > 0 && forall key, message :: |prf(key, message)| == size
  }

  // ---- Key derivation, section 5.2 of RFC 8018 ----

  function XorByte(a: Byte, b: Byte): Byte {
    ((a as bv8) ^ (b as bv8)) as nat
  }

  function Xor(s: Bytes, t: Bytes): (r: Bytes)
    requires |s| == |t|
    ensures |r| == |s|
  {
    seq(|s|, i requires 0 <= i < |s| => XorByte(s[i], t[i]))
  }

  /** The block index as four octets, most significant first. */
  function BigEndian(i: nat): (r: Bytes)
    ensures |r| == 4
  {
    [i / 0x100_0000 % 256, i / 0x1_0000 % 256, i / 0x100 % 256, i % 256]
  }

  /** Four octets for a number, the first the heaviest. */
  predicate Octets(b: Bytes, i: nat) {
    |b| == 4 && (b[0] as int) * 0x100_0000 + (b[1] as int) * 0x1_0000 + (b[2] as int) * 0x100 + b[3] as int == i
  }

  lemma BigEndianWeighs(i: nat)
    requires i < 0x1_0000_0000
    ensures Octets(BigEndian(i), i)
  {
    assert i / 0x100 == i / 0x1_0000 * 0x100 + i / 0x100 % 0x100;
    assert i / 0x1_0000 == i / 0x100_0000 * 0x100 + i / 0x1_0000 % 0x100;
    assert i / 0x100_0000 < 0x100;
  }

  /** U_j for the block with index `i`. */
  function U(prf: Prf, password: Bytes, salt: Bytes, i: nat, j: nat): Bytes
    requires j >= 1
  {
    if j == 1 then prf(password, salt + BigEndian(i)) else prf(password, U(prf, password, salt, i, j - 1))
  }

  /** U_1 xor ... xor U_j. */
  function F(prf: Prf, size: nat, password: Bytes, salt: Bytes, i: nat, j: nat): (r: Bytes)
    requires HasSize(prf, size) && j >= 1
    ensures |r| == size
  {
    var u := U(prf, password, salt, i, j);
    if j == 1 then u else Xor(F(prf, size, password, salt, i, j - 1), u)
  }

  /** An iteration count below one counts as one. */
  function Rounds(iter: int): (n: nat)
    ensures n >= 1
  {
    if iter < 1 then 1 else iter
  }

  /** The recurrence of section 5.2 of RFC 8018: a block is the xor of a chain that starts with the salt and
      the block's number. Each byte of it comes out of the exclusive or of two. */
  lemma {:induction false} BlockRecurrence(prf: Prf, size: nat, password: Bytes, salt: Bytes, i: nat, j: nat, m: nat)
    requires HasSize(prf, size) && i < 0x1_0000_0000 && j >= 1 && m < size
    ensures exists b: Bytes :: Octets(b, i) && U(prf, password, salt, i, 1) == prf(password, salt + b)
    ensures U(prf, password, salt, i, j + 1) == prf(password, U(prf, password, salt, i, j))
    ensures F(prf, size, password, salt, i, 1) == U(prf, password, salt, i, 1)
    ensures F(prf, size, password, salt, i, j + 1)[m] as bv8
            == (F(prf, size, password, salt, i, j)[m] as bv8) ^ (U(prf, password, salt, i, j + 1)[m] as bv8)
  {
    BigEndianWeighs(i);
  }

  /** T_1 || ... || T_n. */
  function Blocks(prf: Prf, size: nat, password: Bytes, salt: Bytes, iter: int, n: nat): (r: Bytes)
    requires HasSize(prf, size)
    ensures |r| == n * size
  {
    if n == 0 then []
    else Blocks(prf, size, password, salt, iter, n - 1) + F(prf, size, password, salt, n, Rounds(iter))
  }

  function BlocksFor(keyLen: nat, size: nat): (n: nat)
    requires size > 0
    ensures keyLen <= n * size && (n > 0 ==> (n - 1) * size < keyLen)
  {
    var n := (keyLen + size - 1) / size;
    assert keyLen + size - 1 == n * size + (keyLen + size - 1) % size;
    n
  }

  /** The derived key: the first `keyLen` bytes of the blocks. */
  function Key(prf: Prf, size: nat, password: Bytes, salt: Bytes, iter: int, keyLen: nat): (r: Bytes)
    requires HasSize(prf, size)
    ensures |r| == keyLen
  {
    Blocks(prf, size, password, salt, iter, BlocksFor(keyLen, size))[..keyLen]
  }

  /** Byte `k` of block `n`, wherever the concatenation ends. */
  lemma {:induction false} BlockByte(prf: Prf, size: nat, password: Bytes, salt: Bytes, iter: int, n: nat, b: nat, k: nat)
    requires HasSize(prf, size) && b < n && k < size
    ensures b * size + k < n * size
    ensures Blocks(prf, size, password, salt, iter, n)[b * size + k] == F(prf, size, password, salt, b + 1, Rounds(iter))[k]
    decreases n
  {
    if b < n - 1 {
      BlockByte(prf, size, password, salt, iter, n - 1, b, k);
      assert n * size == (n - 1) * size + size;
    } else {
      assert b * size == (n - 1) * size && n * size == (n - 1) * size + size;
    }
  }

  /** The key byte by byte: its byte at b * size + k is byte `k` of block b + 1. An iteration count below one
      counts as one. */
  lemma {:induction false} KeyByte(prf: Prf, size: nat, password: Bytes, salt: Bytes, iter: int, keyLen: nat, b: nat, k: nat)
    requires HasSize(prf, size) && k < size && b * size + k < keyLen
    ensures Key(prf, size, password, salt, iter, keyLen)[b * size + k]
            == F(prf, size, password, salt, b + 1, if iter < 1 then 1 else iter)[k]
  {
    var n := BlocksFor(keyLen, size);
    Below(b, n, size, b * size + k);
    BlockByte(prf, size, password, salt, iter, n, b, k);
  }

  lemma Below(b: nat, n: nat, size: nat, m: nat)
    requires size > 0 && b * size <= m < n * size
    ensures b < n
  {
  }

  lemma Position(m: nat, size: nat) returns (b: nat, k: nat)
    requires size > 0
    ensures m == b * size + k && k < size
  {
    b, k := m / size, m % size;
  }

  /** A shorter key is the beginning of a longer one. */
  lemma {:induction false} ShorterKeyIsPrefix(prf: Prf, size: nat, password: Bytes, salt: Bytes, iter: int, short: nat, long: nat)
    requires HasSize(prf, size) && short <= long
    ensures Key(prf, size, password, salt, iter, short) == Key(prf, size, password, salt, iter, long)[..short]
  {
    forall m | 0 <= m < short
      ensures Key(prf, size, password, salt, iter, short)[m] == Key(prf, size, password, salt, iter, long)[m]
    {
      var b, k := Position(m, size);
      KeyByte(prf, size, password, salt, iter, short, b, k);
      KeyByte(prf, size, password, salt, iter, long, b, k);
    }
  }

  /** The innermost loop, in place. */
  method XorInto(t: array<Byte>, u: Bytes)
    requires t.Length == |u|
    modifies t
    ensures t[..] == Xor(old(t[..]), u)
    ensures forall k :: 0 <= k < |u| ==> t[k] as bv8 == (old(t[k]) as bv8) ^ (u[k] as bv8)
  {
    for k := 0 to t.Length
      invariant forall i :: 0 <= i < k ==> t[i] == XorByte(old(t[i]), u[i])
      invariant forall i :: k <= i < t.Length ==> t[i] == old(t[i])
    {
      t[k] := XorByte(t[k], u[k]);
    }
  }

  /** A fresh buffer with the given bytes. */
  method Copy(u: Bytes) returns (t: array<Byte>)
    ensures fresh(t) && t[..] == u
  {
    t := new Byte[|u|](k requires 0 <= k < |u| => u[k]);
  }

  lemma NextRound(prf: Prf, size: nat, password: Bytes, salt: Bytes, i: nat, j: nat)
    requires HasSize(prf, size) && j >= 1
    ensures U(prf, password, salt, i, j + 1) == prf(password, U(prf, password, salt, i, j))
    ensures |U(prf, password, salt, i, j + 1)| == size
    ensures F(prf, size, password, salt, i, j + 1) == Xor(F(prf, size, password, salt, i, j), U(prf, password, salt, i, j + 1))
  {
  }

  /** One block: the running xor is kept in a buffer that is updated in place. */
  method DeriveBlock(prf: Prf, size: nat, password: Bytes, salt: Bytes, iter: int, i: nat) returns (block: Bytes)
    requires HasSize(prf, size)
    ensures block == F(prf, size, password, salt, i, Rounds(iter))
  {
    var index := BigEndian(i);
    var u := prf(password, salt + index);
    var t := Copy(u);
    var j := 1;
    while j < iter
      invariant 1 <= j <= Rounds(iter) && t.Length == size
      invariant u == U(prf, password, salt, i, j)
      invariant t[..] == F(prf, size, password, salt, i, j)
    {
      NextRound(prf, size, password, salt, i, j);
      u := prf(password, u);
      XorInto(t, u);
      j := j + 1;
    }
    block := t[..];
  }

  /** The derivation loop. */
  method DeriveKey(prf: Prf, size: nat, password: Bytes, salt: Bytes, iter: int, keyLen: nat) returns (key: Bytes)
    requires HasSize(prf, size)
    ensures key == Key(prf, size, password, salt, iter, keyLen)
  {
    var numBlocks := BlocksFor(keyLen, size);
    var out: Bytes := [];
    var i := 1;
    while i <= numBlocks
      invariant 1 <= i <= numBlocks + 1
      invariant out == Blocks(prf, size, password, salt, iter, i - 1)
    {
      var block := DeriveBlock(prf, size, password, salt, iter, i);
      out := out + block;
      i := i + 1;
    }
    key := out[..keyLen];
  }

  // ---- Unpadded base64, section 4 of RFC 4648 ----

  type Sextet = n: nat | n < 64

  function Char64(n: Sextet): char {
    if n < 26 then ('A' as int + n) as char
    else if n < 52 then ('a' as int + (n - 26)) as char
    else if n < 62 then ('0' as int + (n - 52)) as char
    else if n == 62 then '+' else '/'
  }

  predicate IsChar64(c: char) {
    'A' <= c <= 'Z' || 'a' <= c <= 'z' || '0' <= c <= '9' || c == '+' || c == '/'
  }

  function Sextet64(c: char): Sextet
    requires IsChar64(c)
  {
    if 'A' <= c <= 'Z' then c as int - 'A' as int
    else if 'a' <= c <= 'z' then c as int - 'a' as int + 26
    else if '0' <= c <= '9' then c as int - '0' as int + 52
    else if c == '+' then 62 else 63
  }

  lemma CapitalAt(k: nat)
    requires k < 26
    ensures "ABCDEFGHIJKLMNOPQRSTUVWXYZ"[k] == ('A' as int + k) as char
  {
  }

  lemma SmallAt(k: nat)
    requires k < 26
    ensures "abcdefghijklmnopqrstuvwxyz"[k] == ('a' as int + k) as char
  {
  }

  lemma DigitAt(k: nat)
    requires k < 10
    ensures "0123456789"[k] == ('0' as int + k) as char
  {
  }

  /** Character by character the alphabet of table 1 of RFC 4648. */
  lemma AlphabetInOrder(n: Sextet)
    ensures Char64(n) ==
            if n < 26 then "ABCDEFGHIJKLMNOPQRSTUVWXYZ"[n] else if n < 52 then "abcdefghijklmnopqrstuvwxyz"[n - 26]
            else if n < 62 then "0123456789"[n - 52] else if n == 62 then '+' else '/'
  {
    if n < 26 {
      CapitalAt(n);
    } else if n < 52 {
      SmallAt(n - 26);
    } else if n < 62 {
      DigitAt(n - 52);
    }
  }

  lemma Char64ReadBack(n: Sextet)
    ensures IsChar64(Char64(n)) && Sextet64(Char64(n)) == n && Char64(n) != '$'
  {
  }

  /** Three bytes as four sextets; a last group of one or two bytes gives two or three. */
  function Sextets(b: Bytes): seq<Sextet> {
    if b == [] then []
    else if |b| == 1 then [b[0] / 4, b[0] % 4 * 16]
    else if |b| == 2 then [b[0] / 4, b[0] % 4 * 16 + b[1] / 16, b[1] % 16 * 4]
    else [b[0] / 4, b[0] % 4 * 16 + b[1] / 16, b[1] % 16 * 4 + b[2] / 64, b[2] % 64] + Sextets(b[3..])
  }

  /** A number in base 64, or 256, most significant digit first. */
  function Weight(digits: seq<int>, base: nat): int {
    if digits == [] then 0 else Weight(digits[..|digits| - 1], base) * base + digits[|digits| - 1]
  }

  function Plain(s: seq<Sextet>): (r: seq<int>)
    ensures |r| == |s|
  {
    seq(|s|, i requires 0 <= i < |s| => s[i] as int)
  }

  lemma {:induction false} WeightOfTwo(a: int, b: int, base: nat)
    ensures Weight([a, b], base) == a * base + b
  {
    assert [a, b][..1] == [a] && [a][..0] == [];
    assert Weight([], base) * base == 0 && Weight([a], base) == a;
  }

  lemma {:induction false} WeightOfThree(a: int, b: int, c: int, base: nat)
    ensures Weight([a, b, c], base) == (a * base + b) * base + c
  {
    WeightOfTwo(a, b, base);
    assert [a, b, c][..2] == [a, b];
  }

  lemma {:induction false} WeightOfFour(a: int, b: int, c: int, d: int, base: nat)
    ensures Weight([a, b, c, d], base) == ((a * base + b) * base + c) * base + d
  {
    WeightOfThree(a, b, c, base);
    assert [a, b, c, d][..3] == [a, b, c];
  }

  /** Three bytes and their four sextets are the same number; a last group of one or two bytes is filled up
      with zero bits. */
  lemma {:induction false} SextetsWeigh(b: Bytes)
    ensures |b| == 1 ==> |Sextets(b)| == 2 && Weight(Plain(Sextets(b)), 64) == (b[0] as int) * 16
    ensures |b| == 2 ==> |Sextets(b)| == 3 && Weight(Plain(Sextets(b)), 64) == Weight([b[0] as int, b[1] as int], 256) * 4
    ensures |b| >= 3 ==>
              && |Sextets(b)| >= 4 && Sextets(b)[4..] == Sextets(b[3..])
              && Weight(Plain(Sextets(b)[..4]), 64) == Weight([b[0] as int, b[1] as int, b[2] as int], 256)
  {
    var s := Sextets(b);
    if |b| == 1 {
      assert Plain(s) == [s[0] as int, s[1] as int];
      WeightOfTwo(s[0], s[1], 64);
    } else if |b| == 2 {
      assert Plain(s) == [s[0] as int, s[1] as int, s[2] as int];
      WeightOfThree(s[0], s[1], s[2], 64);
      WeightOfTwo(b[0], b[1], 256);
    } else if |b| >= 3 {
      assert Plain(s[..4]) == [s[0] as int, s[1] as int, s[2] as int, s[3] as int];
      WeightOfFour(s[0], s[1], s[2], s[3], 64);
      WeightOfThree(b[0], b[1], b[2], 256);
    }
  }

  function Encode(b: Bytes): string {
    var s := Sextets(b);
    seq(|s|, i requires 0 <= i < |s| => Char64(s[i]))
  }

  function FirstByte(s: int, t: int): Byte
    requires 0 <= s < 64 && 0 <= t < 64
  {
    s * 4 + t / 16
  }

  function SecondByte(s: int, t: int): Byte
    requires 0 <= s < 64 && 0 <= t < 64
  {
    s % 16 * 16 + t / 4
  }

  function ThirdByte(s: int, t: int): Byte
    requires 0 <= s < 64 && 0 <= t < 64
  {
    s % 4 * 64 + t
  }

  /** A single sextet left over is not enough for a byte; unused low bits are ignored. */
  function BytesOf(s: seq<Sextet>): Option<Bytes> {
    if s == [] then Some([])
    else if |s| == 1 then None
    else if |s| == 2 then Some([FirstByte(s[0], s[1])])
    else if |s| == 3 then Some([FirstByte(s[0], s[1]), SecondByte(s[1], s[2])])
    else
      var rest := BytesOf(s[4..]);
      if rest.None? then None
      else Some([FirstByte(s[0], s[1]), SecondByte(s[1], s[2]), ThirdByte(s[2], s[3])] + rest.value)
  }

  function WithoutNewlines(s: string): string {
    if s == [] then [] else (if s[0] == '\r' || s[0] == '\n' then [] else [s[0]]) + WithoutNewlines(s[1..])
  }

  predicate AllChar64(s: string) {
    forall i :: 0 <= i < |s| ==> IsChar64(s[i])
  }

  function SextetsOf(s: string): seq<Sextet>
    requires AllChar64(s)
  {
    seq(|s|, i requires 0 <= i < |s| => Sextet64(s[i]))
  }

  /** Line ends are skipped; any other character outside the alphabet is an error. */
  function Decode(s: string): Option<Bytes> {
    var t := WithoutNewlines(s);
    if AllChar64(t) then BytesOf(SextetsOf(t)) else None
  }

  lemma {:induction false} BytesReadBack(b: Bytes)
    ensures BytesOf(Sextets(b)) == Some(b)
    decreases |b|
  {
    if |b| >= 3 {
      BytesReadBack(b[3..]);
      var s := Sextets(b);
      assert s[4..] == Sextets(b[3..]);
      assert FirstByte(s[0], s[1]) == b[0] && SecondByte(s[1], s[2]) == b[1] && ThirdByte(s[2], s[3]) == b[2];
      assert [b[0], b[1], b[2]] + b[3..] == b;
    } else if |b| == 2 {
      assert b == [b[0], b[1]];
    } else if |b| == 1 {
      assert b == [b[0]];
    }
  }

  lemma {:induction false} NoNewlinesLeft(s: string)
    requires AllChar64(s)
    ensures WithoutNewlines(s) == s
  {
    if s != [] {
      NoNewlinesLeft(s[1..]);
    }
  }

  /** Decoding undoes encoding, and an encoding has no dollar sign. */
  lemma {:induction false} Base64ReadBack(b: Bytes)
    ensures Decode(Encode(b)) == Some(b)
    ensures '$' !in Encode(b)
  {
    var s, t := Sextets(b), Encode(b);
    forall i | 0 <= i < |t| ensures IsChar64(t[i]) && Sextet64(t[i]) == s[i] && t[i] != '$' {
      Char64ReadBack(s[i]);
    }
    NoNewlinesLeft(t);
    assert SextetsOf(t) == s;
    BytesReadBack(b);
  }

  lemma {:induction false} LengthDecides(s: seq<Sextet>)
    ensures BytesOf(s).None? <==> |s| % 4 == 1
  {
    if |s| >= 4 {
      LengthDecides(s[4..]);
    }
  }

  lemma {:induction false} NewlinesLeftOut(s: string)
    ensures WithoutNewlines(s) == s[..] || '\n' in s || '\r' in s
    ensures forall c :: c in WithoutNewlines(s) <==> c in s && c != '\n' && c != '\r'
  {
    if s != [] {
      NewlinesLeftOut(s[1..]);
      assert s == [s[0]] + s[1..];
    }
  }

  /** What cannot be decoded: a character that is neither of the alphabet nor of a line end, or one
      character too many. */
  lemma {:induction false} DecodeFails(s: string)
    ensures Decode(s).None? <==>
            (exists c :: c in s && !IsChar64(c) && c != '\n' && c != '\r') || |WithoutNewlines(s)| % 4 == 1
  {
    var t := WithoutNewlines(s);
    NewlinesLeftOut(s);
    if AllChar64(t) {
      LengthDecides(SextetsOf(t));
      forall c | c in s && c != '\n' && c != '\r' ensures IsChar64(c) {
        assert c in t;
      }
    } else {
      var i :| 0 <= i < |t| && !IsChar64(t[i]);
      assert t[i] in t;
    }
  }

  // ---- Stored passwords ----

  /** `strings.Split` on the dollar sign; `part` is the part being read. */
  function SplitDollar(part: string, s: string): (parts: seq<string>)
    ensures parts != []
    decreases |s|
  {
    if s == [] then [part]
    else if s[0] == '$' then [part] + SplitDollar("", s[1..])
    else SplitDollar(part + [s[0]], s[1..])
  }

  lemma {:induction false} SplitTakes(part: string, s: string, rest: string)
    requires '$' !in s
    ensures SplitDollar(part, s + rest) == SplitDollar(part + s, rest)
    decreases |s|
  {
    if s == [] {
      assert s + rest == rest && part + s == part;
    } else {
      assert (s + rest)[1..] == s[1..] + rest;
      SplitTakes(part + [s[0]], s[1..], rest);
      assert part + [s[0]] + s[1..] == part + s;
    }
  }

  lemma {:induction false} SplitFirst(s: string, rest: string)
    requires '$' !in s
    ensures SplitDollar("", s + (['$'] + rest)) == [s] + SplitDollar("", rest)
    ensures SplitDollar("", s) == [s]
  {
    SplitTakes("", s, ['$'] + rest);
    assert "" + s == s && (['$'] + rest)[1..] == rest;
    SplitTakes("", s, "");
    assert s + "" == s;
  }

  const MAX_INT := 0x7fff_ffff_ffff_ffff

  /** `%d`: a sign, then digits; what follows them is ignored. */
  function ScanInt(s: string): Option<int> {
    var negative := s != [] && s[0] == '-';
    var rest := if s != [] && (s[0] == '-' || s[0] == '+') then s[1..] else s;
    var digits := rest[..DigitRun(rest)];
    var n: int := NumberOf(digits);
    if digits == [] || n > (if negative then MAX_INT + 1 else MAX_INT) then None
    else Some(if negative then -n else n)
  }

  /** The number a text begins with: a sign, if any, and the digits after it, if they fit 64 bits. */
  lemma {:induction false} ScanReads(sign: string, x: string, rest: string)
    requires sign in {"", "+", "-"} && x != [] && AllDigits(x) && (rest != [] ==> !IsDigit(rest[0]))
    ensures var n: int := NumberOf(x);
            ScanInt(sign + (x + rest)) ==
            if sign == "-" then if n <= 0x8000_0000_0000_0000 then Some(-n) else None
            else if n < 0x8000_0000_0000_0000 then Some(n) else None
  {
    var s := sign + (x + rest);
    DigitRunStops(x, rest);
    assert (x + rest)[..|x|] == x;
    if sign == "" {
      assert s == x + rest && IsDigit(s[0]);
    } else {
      assert s[1..] == x + rest;
    }
  }

  lemma {:induction false} ScanDecimal(n: nat)
    requires n <= MAX_INT
    ensures ScanInt(Decimal(n)) == Some(n) && '$' !in Decimal(n)
  {
    var d := Decimal(n);
    DigitRunStops(d, "");
    assert d + "" == d && d[..|d|] == d;
    NumberOfDigits(n);
  }

  const SCHEME := "pbkdf2-sha256"
  const ITERATIONS := 210000
  const KEY_LENGTH := 32

  function Stored(iterations: nat, salt: Bytes, key: Bytes): string {
    FourJoined(Decimal(iterations), Encode(salt), Encode(key))
  }

  function HashPassword(prf: Prf, size: nat, password: Bytes, salt: Bytes): string
    requires HasSize(prf, size)
  {
    Stored(ITERATIONS, salt, Key(prf, size, password, salt, ITERATIONS, KEY_LENGTH))
  }

  lemma {:induction false} IterationsInWords()
    ensures Decimal(210000) == "210000"
  {
    assert Digits(2) == "2" && Digits(21) == "21" && Digits(210) == "210";
    assert Digits(2100) == "2100" && Digits(21000) == "21000" && Digits(210000) == "210000";
  }

  /** What is stored of a password: the scheme, 210000 iterations, the salt and a key of 32 bytes. */
  lemma {:induction false} StoredForm(prf: Prf, size: nat, password: Bytes, salt: Bytes)
    requires HasSize(prf, size)
    ensures HashPassword(prf, size, password, salt)
            == FourJoined("210000", Encode(salt), Encode(Key(prf, size, password, salt, 210000, 32)))
  {
    IterationsInWords();
  }

  /** A stored password taken apart. */
  datatype Parts = Parts(iterations: int, salt: Bytes, key: Bytes)

  function TakeApart(stored: string): Option<Parts> {
    var parts := SplitDollar("", stored);
    if |parts| != 4 || parts[0] != SCHEME then None
    else
      var iterations, salt, key := ScanInt(parts[1]), Decode(parts[2]), Decode(parts[3]);
      if iterations.None? || salt.None? || key.None? then None else Some(Parts(iterations.value, salt.value, key.value))
  }

  function JoinDollar(parts: seq<string>): string
    requires parts != []
  {
    if |parts| == 1 then parts[0] else parts[0] + (['$'] + JoinDollar(parts[1..]))
  }

  lemma {:induction false} SplitJoins(part: string, s: string)
    requires '$' !in part
    ensures JoinDollar(SplitDollar(part, s)) == part + s && forall p :: p in SplitDollar(part, s) ==> '$' !in p
    decreases |s|
  {
    if s != [] {
      if s[0] == '$' {
        SplitJoins("", s[1..]);
        assert part + s == part + (['$'] + ("" + s[1..]));
      } else {
        SplitJoins(part + [s[0]], s[1..]);
      }
    }
  }

  /** Four parts between dollar signs, of which the first is the scheme. */
  function FourJoined(a: string, b: string, c: string): string {
    SCHEME + (['$'] + (a + (['$'] + (b + (['$'] + c)))))
  }

  lemma {:induction false} JoinOfFour(x: string, a: string, b: string, c: string)
    ensures JoinDollar([x, a, b, c]) == x + (['$'] + (a + (['$'] + (b + (['$'] + c)))))
  {
    assert [x, a, b, c][1..] == [a, b, c] && [a, b, c][1..] == [b, c] && [b, c][1..] == [c];
    assert JoinDollar([c]) == c && JoinDollar([b, c]) == b + (['$'] + c);
    assert JoinDollar([a, b, c]) == a + (['$'] + (b + (['$'] + c)));
  }

  ghost predicate FormOf(stored: string, p: Parts, a: string, b: string, c: string) {
    && stored == FourJoined(a, b, c) && '$' !in a && '$' !in b && '$' !in c
    && ScanInt(a) == Some(p.iterations) && Decode(b) == Some(p.salt) && Decode(c) == Some(p.key)
  }

  lemma {:induction false} FourPartsJoined(stored: string)
    requires |SplitDollar("", stored)| == 4
    ensures var parts := SplitDollar("", stored);
            && stored == parts[0] + (['$'] + (parts[1] + (['$'] + (parts[2] + (['$'] + parts[3])))))
            && '$' !in parts[1] && '$' !in parts[2] && '$' !in parts[3]
  {
    var parts := SplitDollar("", stored);
    SplitJoins("", stored);
    assert "" + stored == stored && parts == [parts[0], parts[1], parts[2], parts[3]];
    JoinOfFour(parts[0], parts[1], parts[2], parts[3]);
    assert parts[1] in parts && parts[2] in parts && parts[3] in parts;
  }

  lemma {:induction false} TakenApartHasForm(stored: string, p: Parts)
    requires TakeApart(stored) == Some(p)
    ensures exists a: string, b: string, c: string :: FormOf(stored, p, a, b, c)
  {
    var parts := SplitDollar("", stored);
    FourPartsJoined(stored);
    assert FormOf(stored, p, parts[1], parts[2], parts[3]);
  }

  /** Nothing else passes for a stored password: exactly the texts of four parts between dollar signs, the
      scheme, a number, and two base64 texts, can be taken apart. */
  lemma {:induction false} TakenApartIff(stored: string, p: Parts)
    ensures TakeApart(stored) == Some(p) <==> exists a: string, b: string, c: string :: FormOf(stored, p, a, b, c)
    ensures SCHEME == "pbkdf2-sha256"
  {
    if TakeApart(stored) == Some(p) {
      TakenApartHasForm(stored, p);
    }
    if a: string, b: string, c: string :| FormOf(stored, p, a, b, c) {
      SchemeHasNoDollar();
      FourParts(SCHEME, a, b, c);
    }
  }

  predicate VerifyPassword(prf: Prf, size: nat, password: Bytes, stored: string)
    requires HasSize(prf, size)
  {
    var parts := TakeApart(stored);
    && parts.Some?
    && Key(prf, size, password, parts.value.salt, parts.value.iterations, |parts.value.key|) == parts.value.key
  }

  lemma SchemeHasNoDollar()
    ensures '$' !in SCHEME
  {
  }

  lemma {:induction false} FourParts(a: string, b: string, c: string, d: string)
    requires '$' !in a && '$' !in b && '$' !in c && '$' !in d
    ensures SplitDollar("", a + (['$'] + (b + (['$'] + (c + (['$'] + d)))))) == [a, b, c, d]
  {
    SplitFirst(d, "");
    SplitFirst(c, d);
    SplitFirst(b, c + (['$'] + d));
    SplitFirst(a, b + (['$'] + (c + (['$'] + d))));
  }

  /** What is stored can be taken apart again. */
  lemma {:induction false} TakeApartStored(iterations: nat, salt: Bytes, key: Bytes)
    requires iterations <= MAX_INT
    ensures TakeApart(Stored(iterations, salt, key)) == Some(Parts(iterations, salt, key))
  {
    SchemeHasNoDollar();
    ScanDecimal(iterations);
    Base64ReadBack(salt);
    Base64ReadBack(key);
    FourParts(SCHEME, Decimal(iterations), Encode(salt), Encode(key));
  }

  /** A password is accepted against the stored form of another exactly when both derive the same
      key from the stored salt; in particular every password is accepted against its own. */
  lemma {:induction false} AcceptedIffSameKey(prf: Prf, size: nat, password: Bytes, attempt: Bytes, salt: Bytes)
    requires HasSize(prf, size)
    ensures VerifyPassword(prf, size, attempt, HashPassword(prf, size, password, salt)) <==>
            Key(prf, size, attempt, salt, 210000, 32) == Key(prf, size, password, salt, 210000, 32)
    ensures VerifyPassword(prf, size, password, HashPassword(prf, size, password, salt))
  {
    TakeApartStored(ITERATIONS, salt, Key(prf, size, password, salt, ITERATIONS, KEY_LENGTH));
  }
}
