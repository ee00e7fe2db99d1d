/** Text taken from an uploaded document: line ends normalized, runs of blank lines squeezed, and the
    whole cut to 400 KB at a character boundary. Text is a sequence of Unicode scalar values; its
    size is that of its UTF-8 form. */
module SpecDoc {
  import opened Wrappers
  import opened Text

  // ---- UTF-8, section 3 of RFC 3629 ----

  function EncodeChar(c: char): (b: Bytes)
    ensures 1 <= |b| <= 4
  {
    var n := c as int;
    if n < 0x80 then [n]
    else if n < 0x800 then [0xC0 + n / 64, 0x80 + n % 64]
    else if n < 0x1_0000 then [0xE0 + n / 4096, 0x80 + n / 64 % 64, 0x80 + n % 64]
    else [0xF0 + n / 262144, 0x80 + n / 4096 % 64, 0x80 + n / 64 % 64, 0x80 + n % 64]
  }

  /** A byte behind the first. */
  predicate IsTail(b: Byte) {
    0x80 <= b < 0xC0
  }

  function SixBits(b: Byte): int {
    b as int - 0x80
  }

  lemma TwoByteForm(c: char)
    requires 0x80 <= c as int < 0x800
    ensures var b := EncodeChar(c);
            |b| == 2 && 0xC2 <= b[0] < 0xE0 && IsTail(b[1]) && (b[0] as int - 0xC0) * 64 + SixBits(b[1]) == c as int
  {
  }

  lemma Quotients(n: nat)
    ensures n == n / 64 * 64 + n % 64 && n / 64 == n / 4096 * 64 + n / 64 % 64 && n / 4096 == n / 262144 * 64 + n / 4096 % 64
  {
  }

  lemma ThreeByteForm(c: char)
    requires 0x800 <= c as int < 0x1_0000
    ensures var b := EncodeChar(c);
            && |b| == 3 && 0xE0 <= b[0] < 0xF0 && IsTail(b[1]) && IsTail(b[2])
            && ((b[0] as int - 0xE0) * 64 + SixBits(b[1])) * 64 + SixBits(b[2]) == c as int
  {
    Quotients(c as int);
  }

  lemma FourByteForm(c: char)
    requires 0x1_0000 <= c as int
    ensures var b := EncodeChar(c);
            && |b| == 4 && 0xF0 <= b[0] < 0xF5 && IsTail(b[1]) && IsTail(b[2]) && IsTail(b[3])
            && (((b[0] as int - 0xF0) * 64 + SixBits(b[1])) * 64 + SixBits(b[2])) * 64 + SixBits(b[3]) == c as int
  {
    Quotients(c as int);
  }

  /** The four forms of a character's number, each in its range, six bits to a byte behind the first. */
  lemma EncodedForm(c: char)
    ensures var b, n := EncodeChar(c), c as int;
            if n < 0x80 then |b| == 1 && b[0] as int == n
            else if n < 0x800 then |b| == 2 && 0xC2 <= b[0] < 0xE0 && (b[0] as int - 0xC0) * 64 + SixBits(b[1]) == n
            else if n < 0x1_0000 then
              |b| == 3 && 0xE0 <= b[0] < 0xF0 && ((b[0] as int - 0xE0) * 64 + SixBits(b[1])) * 64 + SixBits(b[2]) == n
            else
              && |b| == 4 && 0xF0 <= b[0] < 0xF5
              && (((b[0] as int - 0xF0) * 64 + SixBits(b[1])) * 64 + SixBits(b[2])) * 64 + SixBits(b[3]) == n
    ensures forall i :: 0 < i < |EncodeChar(c)| ==> IsTail(EncodeChar(c)[i])
  {
    var n := c as int;
    if 0x80 <= n < 0x800 {
      TwoByteForm(c);
    } else if 0x800 <= n < 0x1_0000 {
      ThreeByteForm(c);
    } else if 0x1_0000 <= n {
      FourByteForm(c);
    }
  }

  function Utf8(s: string): Bytes {
    if s == [] then [] else EncodeChar(s[0]) + Utf8(s[1..])
  }

  /** Not a continuation byte: the top two bits are not 10. */
  predicate IsRuneStart(b: Byte) {
    b / 64 != 2
  }

  /** Exactly the first byte of a character starts it. */
  lemma StartsAtZero(c: char, i: nat)
    requires i < |EncodeChar(c)|
    ensures IsRuneStart(EncodeChar(c)[i]) <==> i == 0
  {
  }

  /** A position that starts a character, or the end, cuts the text between two characters. */
  lemma {:induction false} StartIsBoundary(s: string, i: nat) returns (k: nat)
    requires i <= |Utf8(s)| && (i < |Utf8(s)| ==> IsRuneStart(Utf8(s)[i]))
    ensures k <= |s| && Utf8(s[..k]) == Utf8(s)[..i]
  {
    if i == 0 {
      return 0;
    }
    var head, tail := EncodeChar(s[0]), Utf8(s[1..]);
    if i < |head| {
      StartsAtZero(s[0], i);
    }
    assert Utf8(s) == head + tail;
    var j := StartIsBoundary(s[1..], i - |head|);
    k := j + 1;
    assert s[..k][1..] == s[1..][..j];
    assert Utf8(s)[..i] == head + tail[..i - |head|];
  }

  /** No character is longer than four bytes. */
  lemma {:induction false} StartNearby(s: string, i: nat) returns (j: nat)
    requires i < |Utf8(s)|
    ensures j <= i <= j + 3 && IsRuneStart(Utf8(s)[j])
  {
    var head, tail := EncodeChar(s[0]), Utf8(s[1..]);
    assert Utf8(s) == head + tail;
    if i < |head| {
      StartsAtZero(s[0], 0);
      return 0;
    }
    var k := StartNearby(s[1..], i - |head|);
    j := k + |head|;
    assert Utf8(s)[j] == tail[k];
  }

  /** Keep a text that fits; else step back from the limit to the start of a character. */
  method TruncateAtRune(b: Bytes, limit: nat) returns (cut: nat)
    ensures |b| <= limit ==> cut == |b|
    ensures limit < |b| ==> cut <= limit && (cut == 0 || IsRuneStart(b[cut])) && forall i :: cut < i <= limit ==> !IsRuneStart(b[i])
  {
    if |b| <= limit {
      return |b|;
    }
    cut := limit;
    while cut > 0 && !IsRuneStart(b[cut])
      invariant cut <= limit
      invariant forall i :: cut < i <= limit ==> !IsRuneStart(b[i])
    {
      cut := cut - 1;
    }
  }

  /** The cut falls between two characters and gives up at most three bytes. */
  lemma {:induction false} CutIsClean(s: string, limit: nat, cut: nat) returns (k: nat)
    requires limit < |Utf8(s)| && cut <= limit && (cut == 0 || IsRuneStart(Utf8(s)[cut]))
    requires forall i :: cut < i <= limit ==> !IsRuneStart(Utf8(s)[i])
    ensures k <= |s| && Utf8(s[..k]) == Utf8(s)[..cut] && limit <= cut + 3
  {
    if cut == 0 {
      StartsAtZero(s[0], 0);
    }
    k := StartIsBoundary(s, cut);
    var j := StartNearby(s, limit);
  }

  // ---- Lines ----

  /** `strings.Split` at line ends: always at least one line. */
  function Lines(s: string): (r: seq<string>)
    ensures r != []
  {
    if s == [] then [""]
    else
      var rest := Lines(s[1..]);
      if s[0] == '\n' then [""] + rest else [[s[0]] + rest[0]] + rest[1..]
  }

  predicate Blank(line: string) {
    forall i :: 0 <= i < |line| ==> IsSpace(line[i])
  }

  /** The code's test for a blank line. */
  lemma BlankByTrim(line: string)
    ensures TrimSpace(line) == "" <==> Blank(line)
  {
    var left := TrimLeft(line, IsSpace);
    TrimLeftCuts(line, IsSpace);
    TrimRightCuts(left, IsSpace);
  }

  predicate NoneAdjacent(lines: seq<string>) {
    forall i :: 0 <= i < |lines| - 1 ==> !(Blank(lines[i]) && Blank(lines[i + 1]))
  }

  predicate OneLine(line: string) {
    '\n' !in line
  }

  lemma {:induction false} LinesAreLines(s: string)
    ensures forall i :: 0 <= i < |Lines(s)| ==> OneLine(Lines(s)[i])
  {
    if s != [] {
      LinesAreLines(s[1..]);
    }
  }

  /** What is readable in the lines: each line that is not blank, trimmed, in order. */
  function Readable(line: string): seq<string> {
    if Blank(line) then [] else [TrimSpace(line)]
  }

  function Core(lines: seq<string>): seq<string> {
    if lines == [] then [] else Readable(lines[0]) + Core(lines[1..])
  }

  lemma {:induction false} CoreConcat(a: seq<string>, b: seq<string>)
    ensures Core(a + b) == Core(a) + Core(b)
  {
    if a == [] {
      assert a + b == b;
    } else {
      assert (a + b)[1..] == a[1..] + b;
      CoreConcat(a[1..], b);
    }
  }

  // ---- Squeezing blank lines ----

  predicate IsPad(c: char) {
    c == ' ' || c == '\t'
  }

  function Unpadded(line: string): string {
    TrimRight(line, IsPad)
  }

  /** The lines kept; `after` says that the line before was blank. */
  function Squeezed(after: bool, lines: seq<string>): seq<string>
    decreases |lines|
  {
    if lines == [] then []
    else if !Blank(lines[0]) then [Unpadded(lines[0])] + Squeezed(false, lines[1..])
    else if after then Squeezed(true, lines[1..])
    else [Unpadded(lines[0])] + Squeezed(true, lines[1..])
  }

  /** The line without the spaces and tabs at its end. */
  ghost predicate CutsPads(kept: string, line: string) {
    && |kept| <= |line| && kept == line[..|kept|]
    && (forall i :: |kept| <= i < |line| ==> line[i] == ' ' || line[i] == '\t')
    && (kept != "" ==> kept[|kept| - 1] != ' ' && kept[|kept| - 1] != '\t')
  }

  lemma {:induction false} UnpaddedCuts(line: string)
    ensures CutsPads(Unpadded(line), line)
  {
    TrimRightCuts(line, IsPad);
  }

  /** Which lines are kept, one by one: all but those blank ones that follow a blank one, each without the
      spaces and tabs at its end and otherwise as it was, indentation included. */
  lemma {:induction false} SqueezedTells(after: bool, lines: seq<string>)
    requires lines != []
    ensures var drop := Blank(lines[0]) && after;
            var rest := Squeezed(Blank(lines[0]), lines[1..]);
            if drop then Squeezed(after, lines) == rest
            else |Squeezed(after, lines)| == |rest| + 1 && Squeezed(after, lines)[1..] == rest && CutsPads(Squeezed(after, lines)[0], lines[0])
    ensures Squeezed(after, []) == []
  {
    UnpaddedCuts(lines[0]);
  }

  /** Every line with a line end behind it. */
  function Terminated(lines: seq<string>): string {
    if lines == [] then [] else lines[0] + ['\n'] + Terminated(lines[1..])
  }

  lemma {:induction false} TerminatedAppend(lines: seq<string>, line: string)
    ensures Terminated(lines + [line]) == Terminated(lines) + line + ['\n']
  {
    if lines == [] {
      assert lines + [line] == [line];
      assert [line][1..] == [];
    } else {
      assert (lines + [line])[1..] == lines[1..] + [line];
      TerminatedAppend(lines[1..], line);
    }
  }

  lemma {:induction false} SqueezedAppends(out: string, kept: seq<string>, line: string)
    requires out == Terminated(kept)
    ensures out + line + ['\n'] == Terminated(kept + [line])
  {
    TerminatedAppend(kept, line);
  }

  /** The squeezing loop. */
  method CollapseBlankLines(text: string) returns (out: string)
    ensures out == Terminated(Squeezed(false, Lines(text)))
  {
    out := "";
    var blank := 0;
    var lines := Lines(text);
    ghost var kept: seq<string> := [];
    for k := 0 to |lines|
      invariant blank >= 0 && out == Terminated(kept)
      invariant kept + Squeezed(blank > 0, lines[k..]) == Squeezed(false, lines)
    {
      var line := lines[k];
      BlankByTrim(line);
      assert lines[k..][1..] == lines[k + 1..];
      if TrimSpace(line) == "" {
        blank := blank + 1;
        if blank > 1 {
          continue;
        }
      } else {
        blank := 0;
      }
      SqueezedAppends(out, kept, Unpadded(line));
      kept := kept + [Unpadded(line)];
      out := out + Unpadded(line) + ['\n'];
    }
    assert lines[|lines|..] == [] && kept + [] == kept;
  }

  lemma UnpaddedBlank(line: string)
    ensures Blank(Unpadded(line)) <==> Blank(line)
    ensures OneLine(line) ==> OneLine(Unpadded(line))
  {
    TrimRightCuts(line, IsPad);
    var r := Unpadded(line);
    if Blank(r) {
      forall i | 0 <= i < |line| ensures IsSpace(line[i]) {
        assert i < |r| ==> r[i] == line[i];
      }
    }
    if Blank(line) {
      forall i | 0 <= i < |r| ensures IsSpace(r[i]) {
        assert r[i] == line[i];
      }
    }
  }

  lemma {:induction false} SqueezedIsClean(after: bool, lines: seq<string>)
    requires forall i :: 0 <= i < |lines| ==> OneLine(lines[i])
    ensures var r := Squeezed(after, lines);
            && NoneAdjacent(r) && (after && r != [] ==> !Blank(r[0]))
            && forall i :: 0 <= i < |r| ==> OneLine(r[i])
    decreases |lines|
  {
    if lines != [] {
      UnpaddedBlank(lines[0]);
      SqueezedIsClean(Blank(lines[0]), lines[1..]);
    }
  }

  // ---- Trimming does not touch what is readable ----

  lemma {:induction false} TrimLeftSpace(line: string)
    requires line != [] && IsSpace(line[0])
    ensures TrimSpace(line[1..]) == TrimSpace(line)
  {
  }

  lemma {:induction false} TrimRightThenLeft(line: string, c: char)
    requires IsSpace(c)
    ensures TrimLeft(line + [c], IsSpace) == (if TrimLeft(line, IsSpace) == [] then [] else TrimLeft(line, IsSpace) + [c])
  {
    if line == [] {
      assert ([] + [c])[1..] == [];
    } else if IsSpace(line[0]) {
      assert (line + [c])[1..] == line[1..] + [c];
      TrimRightThenLeft(line[1..], c);
    }
  }

  lemma {:induction false} TrimRightSpace(line: string, c: char)
    requires IsSpace(c)
    ensures TrimSpace(line + [c]) == TrimSpace(line)
  {
    TrimRightThenLeft(line, c);
    var left := TrimLeft(line, IsSpace);
    if left != [] {
      assert (left + [c])[..|left|] == left;
    }
  }

  lemma {:induction false} UnpaddedReadable(line: string)
    ensures TrimSpace(Unpadded(line)) == TrimSpace(line)
  {
    if line != [] && IsPad(line[|line| - 1]) {
      var init := line[..|line| - 1];
      UnpaddedReadable(init);
      TrimRightSpace(init, line[|line| - 1]);
      assert init + [line[|line| - 1]] == line;
    }
  }

  /** Squeezing keeps everything readable, in order. */
  lemma {:induction false} SqueezedKeepsCore(after: bool, lines: seq<string>)
    ensures Core(Squeezed(after, lines)) == Core(lines)
    decreases |lines|
  {
    if lines != [] {
      var l := lines[0];
      UnpaddedBlank(l);
      UnpaddedReadable(l);
      SqueezedKeepsCore(Blank(l), lines[1..]);
      if !(Blank(l) && after) {
        assert ([Unpadded(l)] + Squeezed(Blank(l), lines[1..]))[1..] == Squeezed(Blank(l), lines[1..]);
      }
    }
  }

  /** Dropping a space in front, be it a line end or part of a line. */
  lemma {:induction false} DropFirst(s: string)
    requires s != [] && IsSpace(s[0])
    ensures Core(Lines(s[1..])) == Core(Lines(s))
    ensures |Lines(s)| - 1 <= |Lines(s[1..])| <= |Lines(s)|
    ensures var a, b := Lines(s[1..]), Lines(s);
            if s[0] == '\n' then a == b[1..] else |a| == |b| && a[1..] == b[1..] && (Blank(a[0]) <==> Blank(b[0]))
  {
    var rest := Lines(s[1..]);
    if s[0] == '\n' {
      assert ([""] + rest)[1..] == rest;
    } else {
      var line := [s[0]] + rest[0];
      assert line[1..] == rest[0];
      TrimLeftSpace(line);
      BlankCons(s[0], rest[0]);
      assert ([line] + rest[1..])[1..] == rest[1..];
    }
  }

  lemma BlankCons(c: char, line: string)
    requires IsSpace(c)
    ensures Blank([c] + line) <==> Blank(line)
  {
    if Blank([c] + line) {
      forall i | 0 <= i < |line| ensures IsSpace(line[i]) {
        assert ([c] + line)[i + 1] == line[i];
      }
    }
  }

  lemma BlankSnoc(line: string, c: char)
    requires IsSpace(c)
    ensures Blank(line + [c]) <==> Blank(line)
  {
    if Blank(line + [c]) {
      forall i | 0 <= i < |line| ensures IsSpace(line[i]) {
        assert (line + [c])[i] == line[i];
      }
    }
  }

  /** All lines but the last. */
  function Init(lines: seq<string>): seq<string>
    requires lines != []
  {
    lines[..|lines| - 1]
  }

  function Last(lines: seq<string>): string
    requires lines != []
  {
    lines[|lines| - 1]
  }

  /** The lines when one more character comes at the end. */
  lemma {:induction false} LinesSnoc(s: string, c: char)
    ensures var a, b := Lines(s), Lines(s + [c]);
            b == if c == '\n' then a + [""] else Init(a) + [Last(a) + [c]]
  {
    if s == [] {
      assert (s + [c])[1..] == [];
      assert [c] + "" == "" + [c];
    } else {
      assert (s + [c])[1..] == s[1..] + [c];
      LinesSnoc(s[1..], c);
      var rest := Lines(s[1..]);
      LinesSnocStep(s[0], rest, Lines(s[1..] + [c]), c);
    }
  }

  function Prepended(d: char, rest: seq<string>): seq<string>
    requires rest != []
  {
    if d == '\n' then [""] + rest else [[d] + rest[0]] + rest[1..]
  }

  lemma LinesSnocStep(d: char, rest: seq<string>, more: seq<string>, c: char)
    requires rest != [] && more == (if c == '\n' then rest + [""] else Init(rest) + [Last(rest) + [c]])
    ensures var a, b := Prepended(d, rest), Prepended(d, more);
            b == if c == '\n' then a + [""] else Init(a) + [Last(a) + [c]]
  {
    if d != '\n' && c != '\n' && |rest| == 1 {
      assert more[0] == rest[0] + [c];
      assert [d] + (rest[0] + [c]) == ([d] + rest[0]) + [c];
    }
  }

  /** Dropping a space at the end. */
  lemma {:induction false} DropLast(s: string, c: char)
    requires IsSpace(c)
    ensures Core(Lines(s + [c])) == Core(Lines(s))
    ensures c == '\n' ==> Init(Lines(s + [c])) == Lines(s)
    ensures NoneAdjacent(Lines(s + [c])) ==> NoneAdjacent(Lines(s))
  {
    LinesSnoc(s, c);
    if c == '\n' {
      DropLineEnd(Lines(s));
    } else {
      DropBlank(Lines(s), c);
    }
  }

  lemma {:induction false} DropLineEnd(a: seq<string>)
    ensures Core(a + [""]) == Core(a) && Init(a + [""]) == a && (NoneAdjacent(a + [""]) ==> NoneAdjacent(a))
  {
    CoreConcat(a, [""]);
    CoreOfOne("");
    var b := a + [""];
    if NoneAdjacent(b) {
      forall i | 0 <= i < |a| - 1 ensures !(Blank(a[i]) && Blank(a[i + 1])) {
        assert !(Blank(b[i]) && Blank(b[i + 1]));
      }
    }
  }

  lemma {:induction false} DropBlank(a: seq<string>, c: char)
    requires a != [] && IsSpace(c)
    ensures Core(Init(a) + [Last(a) + [c]]) == Core(a) && (NoneAdjacent(Init(a) + [Last(a) + [c]]) ==> NoneAdjacent(a))
  {
    BlankSnoc(Last(a), c);
    DropFromLastLine(Init(a), Last(a), c);
    assert a == Init(a) + [Last(a)];
    if NoneAdjacent(Init(a) + [Last(a) + [c]]) {
      SameBlanks(Init(a), Last(a) + [c], Last(a));
    }
  }

  lemma {:induction false} DropFromLastLine(init: seq<string>, last: string, c: char)
    requires IsSpace(c)
    ensures Core(init + [last + [c]]) == Core(init + [last])
  {
    TrimRightSpace(last, c);
    BlankSnoc(last, c);
    CoreConcat(init, [last]);
    CoreConcat(init, [last + [c]]);
    CoreOfOne(last);
    CoreOfOne(last + [c]);
  }

  lemma CoreOfOne(line: string)
    ensures Core([line]) == Readable(line)
  {
  }

  lemma SameBlanks(init: seq<string>, x: string, y: string)
    requires NoneAdjacent(init + [x]) && (Blank(x) <==> Blank(y))
    ensures NoneAdjacent(init + [y])
  {
    var a, b := init + [x], init + [y];
    forall i | 0 <= i < |b| - 1 ensures !(Blank(b[i]) && Blank(b[i + 1])) {
      assert !(Blank(a[i]) && Blank(a[i + 1]));
    }
  }

  lemma {:induction false} TrimLeftKeeps(s: string)
    ensures Core(Lines(TrimLeft(s, IsSpace))) == Core(Lines(s))
    ensures NoneAdjacent(Init(Lines(s))) ==> NoneAdjacent(Init(Lines(TrimLeft(s, IsSpace))))
  {
    if s != [] && IsSpace(s[0]) {
      DropFirst(s);
      TrimLeftKeeps(s[1..]);
      var a, b := Lines(s[1..]), Lines(s);
      if NoneAdjacent(Init(b)) {
        DropKeepsApart(a, b);
      }
    }
  }

  lemma DropKeepsApart(a: seq<string>, b: seq<string>)
    requires a != [] && b != [] && NoneAdjacent(Init(b))
    requires a == b[1..] || (|a| == |b| && a[1..] == b[1..] && (Blank(a[0]) <==> Blank(b[0])))
    ensures NoneAdjacent(Init(a))
  {
    var x, y := Init(a), Init(b);
    forall i | 0 <= i < |x| - 1 ensures !(Blank(x[i]) && Blank(x[i + 1])) {
      if a == b[1..] {
        assert x[i] == y[i + 1] && x[i + 1] == y[i + 2];
      } else {
        assert x[i + 1] == a[1..][i] == b[1..][i] == y[i + 1];
        assert i > 0 ==> x[i] == a[1..][i - 1] == b[1..][i - 1] == y[i];
      }
    }
  }

  lemma {:induction false} TrimRightKeeps(s: string)
    ensures Core(Lines(TrimRight(s, IsSpace))) == Core(Lines(s))
    ensures NoneAdjacent(Lines(s)) ==> NoneAdjacent(Lines(TrimRight(s, IsSpace)))
  {
    if s != [] && IsSpace(s[|s| - 1]) {
      var init := s[..|s| - 1];
      assert s == init + [s[|s| - 1]];
      DropLast(init, s[|s| - 1]);
      TrimRightKeeps(init);
    }
  }

  // ---- The lines of the squeezed text ----

  lemma {:induction false} LinesOfLine(line: string, rest: string)
    requires OneLine(line)
    ensures Lines(line + (['\n'] + rest)) == [line] + Lines(rest)
  {
    if line == [] {
      assert line + (['\n'] + rest) == ['\n'] + rest;
      assert (['\n'] + rest)[1..] == rest;
    } else {
      assert (line + (['\n'] + rest))[1..] == line[1..] + (['\n'] + rest);
      LinesOfLine(line[1..], rest);
      assert [line[0]] + line[1..] == line;
    }
  }

  lemma {:induction false} LinesOfTerminated(lines: seq<string>)
    requires forall i :: 0 <= i < |lines| ==> OneLine(lines[i])
    ensures Lines(Terminated(lines)) == lines + [""]
  {
    if lines != [] {
      LinesOfTerminated(lines[1..]);
      LinesOfLine(lines[0], Terminated(lines[1..]));
      assert Terminated(lines) == lines[0] + (['\n'] + Terminated(lines[1..]));
      assert [lines[0]] + (lines[1..] + [""]) == lines + [""];
    }
  }

  lemma {:induction false} EndsInNewline(lines: seq<string>)
    requires lines != []
    ensures Terminated(lines) != [] && Terminated(lines)[|Terminated(lines)| - 1] == '\n'
  {
    if |lines| > 1 {
      EndsInNewline(lines[1..]);
    } else {
      assert lines[1..] == [];
    }
  }

  /** What `finish` makes of the text before it looks at the size. */
  function Clean(text: string): string {
    TrimSpace(Terminated(Squeezed(false, Lines(text))))
  }

  lemma {:induction false} TrimmedApart(s: string)
    requires NoneAdjacent(Init(Lines(s))) && (s != [] ==> s[|s| - 1] == '\n')
    ensures NoneAdjacent(Lines(TrimSpace(s)))
  {
    var left := TrimLeft(s, IsSpace);
    TrimLeftKeeps(s);
    TrimLeftCuts(s, IsSpace);
    if left != [] {
      var init := left[..|left| - 1];
      assert left == init + ['\n'];
      DropLast(init, '\n');
      assert TrimRight(left, IsSpace) == TrimRight(init, IsSpace);
      TrimRightKeeps(init);
    }
  }

  /** The cleaned text has no two blank lines in a row, and what is readable in it is what is
      readable in the text, in the same order. */
  lemma {:induction false} CleanKeepsReadable(text: string)
    ensures NoneAdjacent(Lines(Clean(text))) && Core(Lines(Clean(text))) == Core(Lines(text))
  {
    var kept := Squeezed(false, Lines(text));
    var s := Terminated(kept);
    LinesAreLines(text);
    SqueezedIsClean(false, Lines(text));
    SqueezedKeepsCore(false, Lines(text));
    LinesOfTerminated(kept);
    CoreConcat(kept, [""]);
    CoreOfOne("");
    assert Init(kept + [""]) == kept;
    if kept != [] {
      EndsInNewline(kept);
    }
    TrimmedApart(s);
    TrimLeftKeeps(s);
    TrimRightKeeps(TrimLeft(s, IsSpace));
  }

  // ---- The cut ----

  /** The lines of a beginning of the text: all but the last are whole lines. */
  lemma {:induction false} LinesOfPrefix(s: string, k: nat)
    requires k <= |s|
    ensures var a, b := Lines(s[..k]), Lines(s);
            |a| <= |b| && Init(a) == b[..|a| - 1] && Last(a) <= b[|a| - 1]
  {
    if k > 0 {
      assert s[..k][1..] == s[1..][..k - 1];
      LinesOfPrefix(s[1..], k - 1);
      PrefixStep(s[0], Lines(s[1..][..k - 1]), Lines(s[1..]));
    }
  }

  lemma PrefixStep(d: char, a: seq<string>, b: seq<string>)
    requires a != [] && |a| <= |b| && Init(a) == b[..|a| - 1] && Last(a) <= b[|a| - 1]
    ensures var a', b' := Prepended(d, a), Prepended(d, b);
            |a'| <= |b'| && Init(a') == b'[..|a'| - 1] && Last(a') <= b'[|a'| - 1]
  {
    if d != '\n' && |a| > 1 {
      assert a[0] == Init(a)[0] == b[0];
      assert Init(Prepended(d, a)) == [[d] + a[0]] + Init(a)[1..];
    }
  }

  lemma {:induction false} CorePrefix(lines: seq<string>, n: nat)
    requires n <= |lines|
    ensures Core(lines[..n]) <= Core(lines)
  {
    assert lines == lines[..n] + lines[n..];
    CoreConcat(lines[..n], lines[n..]);
  }

  /** Both lines at the cut are blank: the last whole one and what is left of the one that was cut. */
  predicate BlankTail(lines: seq<string>) {
    |lines| >= 2 && Blank(lines[|lines| - 1]) && Blank(lines[|lines| - 2])
  }

  // ---- Where the cut falls ----

  /** Before the end of `s` there is nothing but white space back to a line end, or past two of them. */
  ghost predicate EndsLine(s: string) {
    exists p :: 0 <= p < |s| && s[p] == '\n' && Blank(s[p..])
  }

  ghost predicate EndsTwoLines(s: string) {
    exists p, q :: 0 <= p < q < |s| && s[p] == '\n' && s[q] == '\n' && Blank(s[p..])
  }

  lemma BlankSuffix(init: string, c: char, p: nat)
    requires p <= |init|
    ensures Blank((init + [c])[p..]) <==> Blank(init[p..]) && IsSpace(c)
  {
    var s := (init + [c])[p..];
    assert s == init[p..] + [c];
    if Blank(s) {
      forall i | 0 <= i < |init[p..]| ensures IsSpace(init[p..][i]) {
        assert s[i] == init[p..][i];
      }
      assert s[|s| - 1] == c;
    }
  }

  lemma {:induction false} EndsLineSnoc(init: string, c: char)
    ensures EndsLine(init + [c]) <==> c == '\n' || (IsSpace(c) && EndsLine(init))
  {
    var s := init + [c];
    if EndsLine(s) {
      var p :| 0 <= p < |s| && s[p] == '\n' && Blank(s[p..]);
      BlankSuffix(init, c, p);
      assert p < |init| ==> init[p] == '\n';
    }
    if c == '\n' {
      BlankSuffix(init, c, |init|);
      assert s[|init|] == '\n' && Blank(init[|init|..]);
    } else if IsSpace(c) && EndsLine(init) {
      var p :| 0 <= p < |init| && init[p] == '\n' && Blank(init[p..]);
      BlankSuffix(init, c, p);
      assert s[p] == '\n';
    }
  }

  lemma {:induction false} EndsTwoLinesSnoc(init: string, c: char)
    ensures EndsTwoLines(init + [c]) <==> IsSpace(c) && (EndsTwoLines(init) || (c == '\n' && EndsLine(init)))
  {
    var s := init + [c];
    if EndsTwoLines(s) {
      var p, q :| 0 <= p < q < |s| && s[p] == '\n' && s[q] == '\n' && Blank(s[p..]);
      BlankSuffix(init, c, p);
      assert init[p] == '\n' && (q < |init| ==> init[q] == '\n');
    }
    if IsSpace(c) && EndsTwoLines(init) {
      var p, q :| 0 <= p < q < |init| && init[p] == '\n' && init[q] == '\n' && Blank(init[p..]);
      BlankSuffix(init, c, p);
      assert s[p] == '\n' && s[q] == '\n';
    } else if c == '\n' && EndsLine(init) {
      var p :| 0 <= p < |init| && init[p] == '\n' && Blank(init[p..]);
      BlankSuffix(init, c, p);
      assert s[p] == '\n' && s[|init|] == '\n';
    }
  }

  lemma BlankSnocIff(line: string, c: char)
    ensures Blank(line + [c]) <==> Blank(line) && IsSpace(c)
  {
    var s := line + [c];
    assert s[|line|] == c;
    if Blank(s) {
      forall i | 0 <= i < |line| ensures IsSpace(line[i]) {
        assert s[i] == line[i];
      }
    }
  }

  /** In a text that does not begin with white space, the last line is blank exactly when nothing but
      white space follows a line end. */
  lemma {:induction false} LastLineBlank(s: string)
    requires s != [] && !IsSpace(s[0])
    ensures Blank(Last(Lines(s))) <==> EndsLine(s)
    decreases |s|
  {
    var init, c := s[..|s| - 1], s[|s| - 1];
    assert s == init + [c];
    LinesSnoc(init, c);
    EndsLineSnoc(init, c);
    BlankSnocIff(Last(Lines(init)), c);
    if init == [] {
      assert !EndsLine(init);
    } else {
      LastLineBlank(init);
    }
  }

  /** And its last two lines are blank exactly when nothing but white space follows two line ends. */
  lemma {:induction false} LastTwoLinesBlank(s: string)
    requires s != [] && !IsSpace(s[0])
    ensures BlankTail(Lines(s)) <==> EndsTwoLines(s)
    decreases |s|
  {
    var init, c := s[..|s| - 1], s[|s| - 1];
    assert s == init + [c];
    LinesSnoc(init, c);
    EndsTwoLinesSnoc(init, c);
    BlankSnocIff(Last(Lines(init)), c);
    if init == [] {
      assert !EndsTwoLines(init) && !EndsLine(init);
      assert Lines(init) == [""];
    } else {
      LastTwoLinesBlank(init);
      LastLineBlank(init);
      BlankTailSnoc(Lines(init), Lines(s), c);
    }
  }

  lemma BlankTailSnoc(a: seq<string>, b: seq<string>, c: char)
    requires a != [] && b == (if c == '\n' then a + [""] else Init(a) + [Last(a) + [c]])
    ensures BlankTail(b) <==> if c == '\n' then Blank(Last(a)) else BlankTail(a) && IsSpace(c)
  {
    BlankSnocIff(Last(a), c);
  }

  /** Cut anywhere, the whole lines are the first lines of the text; two blank lines meet only at the
      cut, and exactly when both lines there are blank. */
  lemma {:induction false} CutKeepsLines(s: string, k: nat)
    requires k <= |s| && NoneAdjacent(Lines(s))
    ensures var a := Lines(s[..k]);
            && Core(Init(a)) <= Core(Lines(s)) && NoneAdjacent(Init(a))
            && (NoneAdjacent(a) <==> !BlankTail(a))
  {
    LinesOfPrefix(s, k);
    var a, b := Lines(s[..k]), Lines(s);
    CorePrefix(b, |a| - 1);
    forall i | 0 <= i < |a| - 2 ensures !(Blank(a[i]) && Blank(a[i + 1])) {
      assert a[i] == Init(a)[i] == b[i] && a[i + 1] == Init(a)[i + 1] == b[i + 1];
    }
  }

  // ---- Line ends ----

  function WithoutCrLf(s: string): string {
    if |s| >= 2 && s[0] == '\r' && s[1] == '\n' then ['\n'] + WithoutCrLf(s[2..])
    else if s == [] then [] else [s[0]] + WithoutCrLf(s[1..])
  }

  function WithoutCr(s: string): (r: string)
    ensures |r| == |s|
  {
    seq(|s|, i requires 0 <= i < |s| => if s[i] == '\r' then '\n' else s[i])
  }

  /** The two replacements the code makes. */
  function Normalized(s: string): string {
    WithoutCr(WithoutCrLf(s))
  }

  /** Every line end, of whatever kind, becomes one line feed. */
  function Unix(s: string): string {
    if s == [] then []
    else if s[0] == '\r' then ['\n'] + Unix(if |s| >= 2 && s[1] == '\n' then s[2..] else s[1..])
    else [s[0]] + Unix(s[1..])
  }

  lemma WithoutCrConcat(a: string, b: string)
    ensures WithoutCr(a + b) == WithoutCr(a) + WithoutCr(b)
  {
  }

  lemma {:induction false} NormalizedIsUnix(s: string)
    ensures Normalized(s) == Unix(s) && '\r' !in Normalized(s)
    decreases |s|
  {
    if |s| >= 2 && s[0] == '\r' && s[1] == '\n' {
      NormalizedIsUnix(s[2..]);
      WithoutCrConcat(['\n'], WithoutCrLf(s[2..]));
      assert WithoutCr(['\n']) == ['\n'];
    } else if s != [] {
      NormalizedIsUnix(s[1..]);
      WithoutCrConcat([s[0]], WithoutCrLf(s[1..]));
      assert WithoutCr([s[0]]) == [if s[0] == '\r' then '\n' else s[0]];
    }
  }

  // ---- The whole pass ----

  const MAX_BYTES := 409600
  const ENOUGH := 20

  function CountLetters(s: string, letter: char -> bool): nat {
    if s == [] then 0 else CountLetters(s[..|s| - 1], letter) + if letter(s[|s| - 1]) then 1 else 0
  }

  /** It is the number of places with a letter or digit. */
  lemma {:induction false} CountIsNumber(s: string, letter: char -> bool)
    ensures CountLetters(s, letter) == |set i | 0 <= i < |s| && letter(s[i])|
  {
    if s != [] {
      var init, n := s[..|s| - 1], |s| - 1;
      CountIsNumber(init, letter);
      var before, all := set i | 0 <= i < |init| && letter(init[i]), set i | 0 <= i < |s| && letter(s[i]);
      assert all == before + if letter(s[n]) then {n} else {};
      assert n !in before;
    }
  }

  lemma {:induction false} CountGrows(s: string, k: nat, letter: char -> bool)
    requires k <= |s|
    ensures CountLetters(s[..k], letter) <= CountLetters(s, letter)
    decreases |s|
  {
    if k < |s| {
      CountGrows(s[..|s| - 1], k, letter);
      assert s[..|s| - 1][..k] == s[..k];
    } else {
      assert s[..k] == s;
    }
  }

  /** Whether there are enough letters and digits to read; the scan stops as soon as there are. */
  method HasReadableText(s: string, letter: char -> bool) returns (enough: bool)
    ensures enough <==> CountLetters(s, letter) >= 20
  {
    var letters := 0;
    for i := 0 to |s|
      invariant letters == CountLetters(s[..i], letter) && letters < ENOUGH
    {
      assert s[..i + 1][..i] == s[..i];
      if letter(s[i]) {
        letters := letters + 1;
        if letters >= ENOUGH {
          CountGrows(s, i + 1, letter);
          return true;
        }
      }
    }
    assert s[..|s|] == s;
    return false;
  }

  datatype Accepted = Accepted(bytes: Bytes, truncated: bool)

  /** `a` is the first `k` characters of the cleaned text, all of it if it fits and as much as fits,
      give or take three bytes, if it does not. */
  predicate Capped(clean: string, k: nat, a: Accepted) {
    && k <= |clean| && a.bytes == Utf8(clean[..k]) && |a.bytes| <= 409600
    && (a.truncated <==> |Utf8(clean)| > 409600)
    && if a.truncated then 409600 <= |a.bytes| + 3 else k == |clean|
  }

  method Cap(clean: string) returns (a: Accepted, ghost k: nat)
    ensures Capped(clean, k, a)
  {
    var b := Utf8(clean);
    if |b| > MAX_BYTES {
      var cut := TruncateAtRune(b, MAX_BYTES);
      k := CutIsClean(clean, MAX_BYTES, cut);
      return Accepted(b[..cut], true), k;
    }
    assert clean[..|clean|] == clean;
    return Accepted(b, false), |clean|;
  }

  /** Normalize, check, cap. */
  method Finish(text: string, letter: char -> bool) returns (res: Option<Accepted>, ghost k: nat)
    ensures res.None? <==> CountLetters(Clean(Unix(text)), letter) < 20
    ensures res.Some? ==> Capped(Clean(Unix(text)), k, res.value)
  {
    NormalizedIsUnix(text);
    var clean := CollapseBlankLines(Normalized(text));
    clean := TrimSpace(clean);
    var enough := HasReadableText(clean, letter);
    if !enough {
      return None, 0;
    }
    var a;
    a, k := Cap(clean);
    return Some(a), k;
  }

  /** What is accepted, for every text: valid UTF-8 of at most 400 KB that begins the cleaned text;
      everything readable in its whole lines stands in the document in that order; if nothing was
      cut, all that is readable is there and no two blank lines meet; if something was, two blank lines
      meet exactly when nothing but white space lies between two line ends and the cut. */
  lemma {:induction false} AcceptedText(text: string, k: nat, a: Accepted)
    requires Capped(Clean(Unix(text)), k, a)
    ensures var kept := Clean(Unix(text))[..k];
            var lines := Lines(kept);
            && a.bytes == Utf8(kept) && |a.bytes| <= 409600
            && Core(Init(lines)) <= Core(Lines(Unix(text))) && NoneAdjacent(Init(lines))
            && (NoneAdjacent(lines) <==> !EndsTwoLines(kept))
            && (!a.truncated ==> Core(lines) == Core(Lines(Unix(text))) && NoneAdjacent(lines))
  {
    var clean := Clean(Unix(text));
    CleanKeepsReadable(Unix(text));
    CutKeepsLines(clean, k);
    TrimIsBare(Terminated(Squeezed(false, Lines(Unix(text)))), IsSpace);
    var kept := clean[..k];
    if kept == [] {
      assert !EndsTwoLines(kept) && Lines(kept) == [""];
    } else {
      LastTwoLinesBlank(kept);
    }
    if !a.truncated {
      assert clean[..k] == clean;
    }
  }

  // ---- Blank lines can meet at the cut ----

  lemma {:induction false} OneByteEach(w: string)
    requires forall i :: 0 <= i < |w| ==> w[i] == 'a'
    ensures |Utf8(w)| == |w|
  {
    if w != [] {
      OneByteEach(w[1..]);
    }
  }

  lemma {:induction false} Utf8Concat(a: string, b: string)
    ensures Utf8(a + b) == Utf8(a) + Utf8(b)
  {
    if a == [] {
      assert a + b == b;
    } else {
      assert (a + b)[1..] == a[1..] + b;
      Utf8Concat(a[1..], b);
    }
  }

  /** A text of one long line, a blank line and a short line that is cut right before the last. */
  lemma {:induction false} BlankLinesMeetAtCut(w: string, clean: string, k: nat, a: Accepted)
    requires |w| == MAX_BYTES - 2 && forall i :: 0 <= i < |w| ==> w[i] == 'a'
    requires clean == w + (['\n'] + (['\n'] + ['b'])) && k == |w| + 2 && a == Accepted(Utf8(clean[..k]), true)
    ensures Capped(clean, k, a) && NoneAdjacent(Lines(clean)) && BlankTail(Lines(clean[..k]))
  {
    assert clean[..k] == w + (['\n'] + (['\n'] + []));
    OneByteEach(w);
    Utf8Concat(w, ['\n'] + (['\n'] + ['b']));
    Utf8Concat(w, ['\n'] + (['\n'] + []));
    SizeOfTail(['b']);
    SizeOfTail([]);
    LinesThree(w, clean);
    LinesOfLine(w, ['\n'] + []);
    LinesOfLine([], []);
    var empty: string := [];
    assert empty + (['\n'] + empty) == ['\n'] + empty;
    assert Lines(clean[..k]) == [w, "", ""];
    assert !IsSpace(w[0]) && !IsSpace("b"[0]);
  }

  lemma {:induction false} UnixStays(s: string)
    requires '\r' !in s
    ensures Unix(s) == s
  {
    if s != [] {
      UnixStays(s[1..]);
    }
  }

  lemma {:induction false} SqueezedThree(w: string)
    requires w != [] && !IsSpace(w[0]) && !IsPad(w[|w| - 1])
    ensures Squeezed(false, [w, "", "b"]) == [w, "", "b"]
  {
    assert [w, "", "b"][1..] == ["", "b"] && ["", "b"][1..] == ["b"] && ["b"][1..] == [];
    assert Squeezed(true, ["b"]) == ["b"] + Squeezed(false, []) by {
      assert !IsSpace("b"[0]);
    }
    assert Squeezed(false, ["", "b"]) == [""] + Squeezed(true, ["b"]);
  }

  lemma {:induction false} TerminatedThree(w: string, clean: string)
    requires clean == w + (['\n'] + (['\n'] + ['b']))
    ensures Terminated([w, "", "b"]) == clean + ['\n']
  {
    assert [w, "", "b"][1..] == ["", "b"] && ["", "b"][1..] == ["b"] && ["b"][1..] == [];
    assert Terminated(["b"]) == "b" + ['\n'] + [];
    assert Terminated(["", "b"]) == "" + ['\n'] + Terminated(["b"]);
  }

  lemma {:induction false} LinesThree(w: string, clean: string)
    requires OneLine(w) && clean == w + (['\n'] + (['\n'] + ['b']))
    ensures Lines(clean) == [w, "", "b"]
  {
    LinesOfLine(w, ['\n'] + ['b']);
    LinesOfLine([], ['b']);
    assert [] + (['\n'] + ['b']) == ['\n'] + ['b'];
    ShortLine();
  }

  lemma {:induction false} TrimmedOnce(clean: string)
    requires Bare(clean, IsSpace)
    ensures TrimSpace(clean + ['\n']) == clean
  {
    TrimRightSpace(clean, '\n');
    TrimFixesBare(clean, IsSpace);
  }

  lemma {:induction false} CleanFrom(text: string, lines: seq<string>)
    requires Unix(text) == text && Lines(text) == lines && Squeezed(false, lines) == lines
    requires Terminated(lines) == text + ['\n'] && Bare(text, IsSpace)
    ensures Clean(Unix(text)) == text
  {
    TrimmedOnce(text);
  }

  /** That text is one the pass leaves as it is before the cut. */
  lemma {:induction false} CutTextIsClean(w: string, clean: string)
    requires w != [] && forall i :: 0 <= i < |w| ==> w[i] == 'a'
    requires clean == w + (['\n'] + (['\n'] + ['b']))
    ensures Clean(Unix(clean)) == clean
  {
    UnixStays(clean);
    LinesThree(w, clean);
    SqueezedThree(w);
    TerminatedThree(w, clean);
    assert clean[0] == 'a' && clean[|clean| - 1] == 'b';
    CleanFrom(clean, [w, "", "b"]);
  }

  lemma {:induction false} ShortLine()
    ensures Lines(['b']) == ["b"] && Lines([]) == [""]
  {
    assert ['b'][1..] == [];
    assert Lines([]) == [""];
    assert ['b'] + "" == "b";
  }

  lemma {:induction false} SizeOfTail(rest: string)
    ensures |Utf8(['\n'] + (['\n'] + rest))| == 2 + |Utf8(rest)|
    ensures rest == ['b'] ==> |Utf8(rest)| == 1
  {
  }
}
