/** Text helpers in the meaning Go's `strings` package gives them, on sequences of code points. */
module Text {

  type Byte = n: nat | n < 256

  type Bytes = seq<Byte>

  /** `unicode.IsSpace`. */
  predicate IsSpace(c: char) {
    || c == '\t' || c == '\n' || c == '\U{0B}' || c == '\U{0C}' || c == '\r' || c == ' '
    || c == '\U{85}' || c == '\U{A0}' || c == '\U{1680}' || ('\U{2000}' <= c <= '\U{200A}')
    || c == '\U{2028}' || c == '\U{2029}' || c == '\U{202F}' || c == '\U{205F}' || c == '\U{3000}'
  }

  /** The white space of Unicode, by number. */
  lemma SpaceNumbers(c: char)
    ensures IsSpace(c) <==>
            var n := c as int;
            || 9 <= n <= 13 || n == 32 || n == 133 || n == 160 || n == 5760 || 8192 <= n <= 8202
            || n == 8232 || n == 8233 || n == 8239 || n == 8287 || n == 12288
  {
  }

  function TrimLeft(s: string, cut: char -> bool): string {
    if s != [] && cut(s[0]) then TrimLeft(s[1..], cut) else s
  }

  function TrimRight(s: string, cut: char -> bool): string {
    if s != [] && cut(s[|s| - 1]) then TrimRight(s[..|s| - 1], cut) else s
  }

  function Trim(s: string, cut: char -> bool): string {
    TrimRight(TrimLeft(s, cut), cut)
  }

  function TrimSpace(s: string): string {
    Trim(s, IsSpace)
  }

  /** Nothing at either end that `cut` would take off. */
  predicate Bare(s: string, cut: char -> bool) {
    s != [] ==> !cut(s[0]) && !cut(s[|s| - 1])
  }

  /** `TrimLeft` takes off the longest prefix of characters in the cut set. */
  lemma {:induction false} TrimLeftCuts(s: string, cut: char -> bool)
    ensures var r := TrimLeft(s, cut);
            && |r| <= |s| && r == s[|s| - |r|..]
            && (r != [] ==> !cut(r[0]))
            && (forall i :: 0 <= i < |s| - |r| ==> cut(s[i]))
  {
    if s != [] && cut(s[0]) {
      TrimLeftCuts(s[1..], cut);
      assert forall i :: 1 <= i < |s| ==> s[i] == s[1..][i - 1];
    }
  }

  /** `TrimRight` takes off the longest suffix of characters in the cut set. */
  lemma {:induction false} TrimRightCuts(s: string, cut: char -> bool)
    ensures var r := TrimRight(s, cut);
            && |r| <= |s| && r == s[..|r|]
            && (r != [] ==> !cut(r[|r| - 1]))
            && (forall i :: |r| <= i < |s| ==> cut(s[i]))
  {
    if s != [] && cut(s[|s| - 1]) {
      TrimRightCuts(s[..|s| - 1], cut);
    }
  }

  lemma TrimIsBare(s: string, cut: char -> bool)
    ensures Bare(Trim(s, cut), cut) && |Trim(s, cut)| <= |s|
  {
    TrimLeftCuts(s, cut);
    TrimRightCuts(TrimLeft(s, cut), cut);
  }

  lemma TrimFixesBare(s: string, cut: char -> bool)
    ensures Trim(s, cut) == s <==> Bare(s, cut)
  {
    TrimIsBare(s, cut);
  }

  lemma {:induction false} TrimLeftDrops(p: string, s: string, cut: char -> bool)
    requires (forall i :: 0 <= i < |p| ==> cut(p[i])) && (s != [] ==> !cut(s[0]))
    ensures TrimLeft(p + s, cut) == s
  {
    if p == [] {
      assert p + s == s;
    } else {
      assert (p + s)[1..] == p[1..] + s;
      TrimLeftDrops(p[1..], s, cut);
    }
  }

  lemma {:induction false} TrimRightDrops(s: string, q: string, cut: char -> bool)
    requires (forall i :: 0 <= i < |q| ==> cut(q[i])) && (s != [] ==> !cut(s[|s| - 1]))
    ensures TrimRight(s + q, cut) == s
    decreases |q|
  {
    if q == [] {
      assert s + q == s;
    } else {
      assert (s + q)[..|s + q| - 1] == s + q[..|q| - 1];
      TrimRightDrops(s, q[..|q| - 1], cut);
    }
  }

  /** `Trim` leaves what stands between characters of the cut set. */
  lemma TrimDrops(p: string, core: string, q: string, cut: char -> bool)
    requires (forall i :: 0 <= i < |p| ==> cut(p[i])) && (forall i :: 0 <= i < |q| ==> cut(q[i])) && Bare(core, cut)
    ensures Trim(p + (core + q), cut) == core
  {
    if core == [] {
      TrimLeftDrops(p + q, [], cut);
      assert p + (core + q) == (p + q) + [];
    } else {
      TrimLeftDrops(p, core + q, cut);
      TrimRightDrops(core, q, cut);
    }
  }

  /** `strings.ToLower`, exact wherever the result is ASCII: besides A to Z only U+0130 and the
      Kelvin sign have an ASCII lower case. */
  function LowerChar(c: char): char {
    if 'A' <= c <= 'Z' then (c as int + 32) as char
    else if c == '\U{130}' then 'i'
    else if c == '\U{212A}' then 'k'
    else c
  }

  lemma LowerNumbers(c: char)
    ensures LowerChar(c) as int ==
            var n := c as int;
            if 65 <= n <= 90 then n + 32 else if n == 304 then 105 else if n == 8490 then 107 else n
  {
  }

  function Lower(s: string): (r: string)
    ensures |r| == |s|
  {
    if s == [] then [] else [LowerChar(s[0])] + Lower(s[1..])
  }

  /** `core` is the word up to upper case. */
  predicate Spells(core: string, word: string) {
    |core| == |word| && forall i :: 0 <= i < |word| ==> LowerChar(core[i]) == word[i]
  }

  predicate Contains(s: string, part: string) {
    part <= s || (s != [] && Contains(s[1..], part))
  }

  function Digit(n: nat): char
    requires n < 10
  {
    ('0' as int + n) as char
  }

  /** Decimal notation of a natural number. */
  function Digits(n: nat): (r: string)
    ensures r != [] && forall i :: 0 <= i < |r| ==> '0' <= r[i] <= '9'
  {
    if n < 10 then [Digit(n)] else Digits(n / 10) + [Digit(n % 10)]
  }

  /** `%d`. */
  function Decimal(n: int): string {
    if n < 0 then "-" + Digits(-n) else Digits(n)
  }

  lemma {:induction false} DigitsInjective(m: nat, n: nat)
    requires Digits(m) == Digits(n)
    ensures m == n
    decreases m
  {
    var dm, dn := Digits(m), Digits(n);
    assert dm[|dm| - 1] == Digit(m % 10) && dn[|dn| - 1] == Digit(n % 10);
    if m >= 10 && n >= 10 {
      assert Digits(m / 10) == dm[..|dm| - 1] && Digits(n / 10) == dn[..|dn| - 1];
      DigitsInjective(m / 10, n / 10);
    }
  }

  lemma DecimalInjective(m: int, n: int)
    requires Decimal(m) == Decimal(n)
    ensures m == n
  {
    var dm, dn := Decimal(m), Decimal(n);
    assert dm[0] == dn[0];
    if m < 0 && n < 0 {
      assert dm[1..] == Digits(-m) && dn[1..] == Digits(-n);
      DigitsInjective(-m, -n);
    } else if 0 <= m && 0 <= n {
      DigitsInjective(m, n);
    }
  }

  predicate IsDigit(c: char) {
    '0' <= c <= '9'
  }

  predicate AllDigits(s: string) {
    forall i :: 0 <= i < |s| ==> IsDigit(s[i])
  }

  function NumberOf(s: string): nat
    requires AllDigits(s)
  {
    if s == [] then 0 else 10 * NumberOf(s[..|s| - 1]) + (s[|s| - 1] as int - '0' as int)
  }

  /** How many digits the text begins with. */
  function DigitRun(s: string): (n: nat)
    ensures n <= |s| && AllDigits(s[..n])
  {
    if s == [] || !IsDigit(s[0]) then 0
    else
      var n := 1 + DigitRun(s[1..]);
      assert forall i :: 1 <= i < n ==> s[i] == s[1..][i - 1];
      n
  }

  lemma {:induction false} DigitRunStops(x: string, rest: string)
    requires AllDigits(x) && (rest != [] ==> !IsDigit(rest[0]))
    ensures DigitRun(x + rest) == |x|
  {
    if x == [] {
      assert x + rest == rest;
    } else {
      assert (x + rest)[1..] == x[1..] + rest;
      DigitRunStops(x[1..], rest);
    }
  }

  lemma {:induction false} NumberOfDigits(n: nat)
    ensures NumberOf(Digits(n)) == n
  {
    if n >= 10 {
      NumberOfDigits(n / 10);
      assert Digits(n)[..|Digits(n)| - 1] == Digits(n / 10);
    } else {
      assert Digits(n)[..0] == [];
    }
  }
}
