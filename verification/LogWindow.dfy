/** The window of a JSONL log an admin page reads (blueprints/admin.py, _tail_jsonl): the last bytes
    of the file, decoded and split into lines. */
module LogWindow {
  import opened Wrappers
  import opened Text

  type Byte = x: int | 0 <= x < 256

  const MAX_TAIL_BYTES: nat := 10 * 1024 * 1024

  // ---- decode("utf-8", errors="replace") ----

  const REPLACEMENT: char := '\U{FFFD}'

  predicate Continues(b: int) { 0x80 <= b < 0xC0 }

  /** Whether a second byte may follow this first one (Unicode, table 3-7). */
  predicate SecondFits(first: int, second: int) {
    if first == 0xE0 then 0xA0 <= second < 0xC0
    else if first == 0xED then 0x80 <= second < 0xA0
    else if first == 0xF0 then 0x90 <= second < 0xC0
    else if first == 0xF4 then 0x80 <= second < 0x90
    else Continues(second)
  }

  /** How many bytes the character that starts with this byte has; 0 when none does. */
  function Length(first: int): nat {
    if first < 0x80 then 1 else if 0xC2 <= first < 0xE0 then 2 else if 0xE0 <= first < 0xF0 then 3
    else if 0xF0 <= first < 0xF5 then 4 else 0
  }

  /** How many bytes the next character, or the next replaced sequence, takes. */
  function Width(bytes: seq<Byte>): (n: nat)
    requires bytes != []
    ensures 1 <= n <= |bytes|
    ensures forall i :: 1 <= i < n ==> Continues(bytes[i])
    ensures Continues(bytes[0]) ==> n == 1
  {
    var need := Length(bytes[0]);
    if need < 2 || |bytes| < 2 || !SecondFits(bytes[0], bytes[1]) then 1
    else if need == 2 || |bytes| < 3 || !Continues(bytes[2]) then 2
    else if need == 3 || |bytes| < 4 || !Continues(bytes[3]) then 3
    else 4
  }

  /** The character those bytes stand for: the replacement when they are not a whole one. */
  function CharOf(bytes: seq<Byte>): char
    requires bytes != []
  {
    var n, a: int := Width(bytes), bytes[0];
    if n != Length(a) then REPLACEMENT
    else if n == 1 then a as char
    else
      var b: int := bytes[1];
      if n == 2 then ((a - 0xC0) * 0x40 + b - 0x80) as char
      else
        var c: int := bytes[2];
        if n == 3 then ((a - 0xE0) * 0x1000 + (b - 0x80) * 0x40 + c - 0x80) as char
        else
          var d: int := bytes[3];
          ((a - 0xF0) * 0x40000 + (b - 0x80) * 0x1000 + (c - 0x80) * 0x40 + d - 0x80) as char
  }

  function Decode(bytes: seq<Byte>): string {
    if bytes == [] then "" else [CharOf(bytes)] + Decode(bytes[Width(bytes)..])
  }

  // ---- UTF-8 as it is written (section 3 of RFC 3629) ----

  function Tail6(n: int): (b: Byte)
    requires 0 <= n
    ensures Continues(b)
  {
    0x80 + n % 0x40
  }

  function Encode(c: char): seq<Byte> {
    var n := c as int;
    if n < 0x80 then [n]
    else if n < 0x800 then [0xC0 + n / 0x40, Tail6(n)]
    else if n < 0x10000 then [0xE0 + n / 0x1000, Tail6(n / 0x40), Tail6(n)]
    else [0xF0 + n / 0x40000, Tail6(n / 0x1000), Tail6(n / 0x40), Tail6(n)]
  }

  function EncodeAll(text: string): seq<Byte> { if text == "" then [] else Encode(text[0]) + EncodeAll(text[1..]) }

  lemma ShortReads(c: char, bytes: seq<Byte>)
    requires c as int < 0x800 && Encode(c) <= bytes
    ensures Width(bytes) == |Encode(c)| && CharOf(bytes) == c
  {
  }

  lemma ThreeRead(c: char, bytes: seq<Byte>)
    requires 0x800 <= c as int < 0x10000 && Encode(c) <= bytes
    ensures Width(bytes) == 3 && CharOf(bytes) == c
  {
    var n := c as int;
    assert n == n / 0x1000 * 0x1000 + n / 0x40 % 0x40 * 0x40 + n % 0x40;
    assert bytes[0] == 0xE0 + n / 0x1000 && bytes[1] == Tail6(n / 0x40) && bytes[2] == Tail6(n);
  }

  lemma DivTwice(n: nat)
    ensures n / 0x40 / 0x40 == n / 0x1000
  {
    var q, r := n / 0x1000, n % 0x1000;
    assert n / 0x40 == q * 0x40 + r / 0x40;
  }

  lemma DivThrice(n: nat)
    ensures n / 0x1000 / 0x40 == n / 0x40000
  {
    var q, r := n / 0x40000, n % 0x40000;
    assert n / 0x1000 == q * 0x40 + r / 0x1000;
  }

  lemma FourParts(n: nat)
    requires 0x10000 <= n < 0x110000
    ensures var a, b, c, d := n / 0x40000, n / 0x1000 % 0x40, n / 0x40 % 0x40, n % 0x40;
            n == a * 0x40000 + b * 0x1000 + c * 0x40 + d && a <= 4 && (a == 0 ==> b >= 0x10) && (a == 4 ==> b < 0x10)
  {
    var x, y, z := n / 0x40, n / 0x1000, n / 0x40000;
    DivTwice(n);
    DivThrice(n);
    assert n == x * 0x40 + n % 0x40 && x == y * 0x40 + x % 0x40 && y == z * 0x40 + y % 0x40;
  }

  lemma FourRead(c: char, bytes: seq<Byte>)
    requires 0x10000 <= c as int && Encode(c) <= bytes
    ensures Width(bytes) == 4 && CharOf(bytes) == c
  {
    var n := c as int;
    FourParts(n);
    assert |bytes| >= 4 && bytes[0] == Encode(c)[0] && bytes[1] == Encode(c)[1];
    assert bytes[2] == Encode(c)[2] && bytes[3] == Encode(c)[3];
    assert Width(bytes) == 4;
  }

  /** Every text written as UTF-8 decodes to itself. */
  lemma {:induction false} EncodedReads(text: string)
    ensures Decode(EncodeAll(text)) == text
  {
    if text != "" {
      var c, bytes := text[0], EncodeAll(text);
      if c as int < 0x800 { ShortReads(c, bytes); }
      else if c as int < 0x10000 { ThreeRead(c, bytes); }
      else { FourRead(c, bytes); }
      EncodedReads(text[1..]);
      assert bytes[Width(bytes)..] == EncodeAll(text[1..]);
      assert text == [c] + text[1..];
    }
  }

  lemma Digits(high: nat, low: nat)
    requires low < 0x40
    ensures (high * 0x40 + low) / 0x40 == high && (high * 0x40 + low) % 0x40 == low
  {
  }

  lemma ThreeDigits(x: nat, y: nat, z: nat)
    requires y < 0x40 && z < 0x40
    ensures var n := x * 0x1000 + y * 0x40 + z; n / 0x1000 == x && n / 0x40 % 0x40 == y && n % 0x40 == z
  {
    Digits(x * 0x40 + y, z);
    Digits(x, y);
    DivTwice(x * 0x1000 + y * 0x40 + z);
  }

  lemma FourDigits(w: nat, x: nat, y: nat, z: nat)
    requires x < 0x40 && y < 0x40 && z < 0x40
    ensures var n := w * 0x40000 + x * 0x1000 + y * 0x40 + z;
            n / 0x40000 == w && n / 0x1000 % 0x40 == x && n / 0x40 % 0x40 == y && n % 0x40 == z
  {
    ThreeDigits(w * 0x40 + x, y, z);
    Digits(w, x);
    DivThrice(w * 0x40000 + x * 0x1000 + y * 0x40 + z);
  }

  lemma ThreeWritten(bytes: seq<Byte>)
    requires bytes != [] && Width(bytes) == 3 && CharOf(bytes) != REPLACEMENT
    ensures bytes[..3] == Encode(CharOf(bytes))
  {
    var a: int := bytes[0];
    ThreeDigits(a - 0xE0, bytes[1] - 0x80, bytes[2] - 0x80);
  }

  lemma FourWritten(bytes: seq<Byte>)
    requires bytes != [] && Width(bytes) == 4 && CharOf(bytes) != REPLACEMENT
    ensures bytes[..4] == Encode(CharOf(bytes))
  {
    var a: int := bytes[0];
    FourDigits(a - 0xF0, bytes[1] - 0x80, bytes[2] - 0x80, bytes[3] - 0x80);
  }

  /** A character is read only from the bytes it is written as; any others are replaced. */
  lemma OnlyWrittenReads(bytes: seq<Byte>)
    requires bytes != [] && CharOf(bytes) != REPLACEMENT
    ensures bytes[..Width(bytes)] == Encode(CharOf(bytes))
  {
    var k, a: int := Width(bytes), bytes[0];
    if k == 2 {
      Digits(a - 0xC0, bytes[1] - 0x80);
    } else if k == 3 {
      ThreeWritten(bytes);
    } else if k == 4 {
      FourWritten(bytes);
    }
  }

  // ---- splitlines() ----

  predicate Break(c: char) { Sep(c) || c == '\r' }

  function BreakFrom(text: string, i: nat): (n: nat)
    requires i <= |text|
    ensures i <= n <= |text|
    decreases |text| - i
  {
    if i == |text| || Break(text[i]) then i else BreakFrom(text, i + 1)
  }

  /** Where the first line ends. */
  function FirstBreak(text: string): (n: nat)
    ensures n <= |text|
  {
    BreakFrom(text, 0)
  }

  /** Where the line after the first break starts: a carriage return takes a newline with it. */
  function NextLine(text: string): (n: nat)
    requires FirstBreak(text) < |text|
    ensures FirstBreak(text) < n <= |text|
  {
    var n := FirstBreak(text);
    if text[n] == '\r' && n + 1 < |text| && text[n + 1] == '\n' then n + 2 else n + 1
  }

  function SplitLines(text: string): seq<string>
    decreases |text|
  {
    if text == "" then []
    else if FirstBreak(text) == |text| then [text]
    else [text[..FirstBreak(text)]] + SplitLines(text[NextLine(text)..])
  }

  lemma {:induction false} Unbroken(line: string, i: nat)
    requires i <= |line| && forall c :: c in line ==> !Break(c)
    ensures BreakFrom(line, i) == |line|
    decreases |line| - i
  {
    if i < |line| {
      assert line[i] in line;
      Unbroken(line, i + 1);
    }
  }

  /** These characters end a line and no other does. */
  lemma BreaksAre(c: char)
    ensures Break(c) <==> c in {'\n', '\r', '\U{0b}', '\U{0c}', '\U{1c}', '\U{1d}', '\U{1e}', '\U{85}',
                                '\U{2028}', '\U{2029}'}
  {
  }

  /** A line is what stands before the first end; the end itself, two characters of it for
      a carriage return with a newline, belongs to no line. */
  lemma LineEnds(line: string, end: string, rest: string)
    requires forall c :: c in line ==> !Break(c)
    requires end == "\r\n" || (|end| == 1 && Break(end[0]))
    requires end == "\r" && rest != "" ==> rest[0] != '\n'
    ensures SplitLines(line + end + rest) == [line] + SplitLines(rest)
    ensures line != "" ==> SplitLines(line) == [line]
  {
    var text := line + end + rest;
    Unbroken(line, 0);
    assert line + end + rest == line + (end + rest);
    BreakConcat(line, end + rest);
    assert text[|line|] == end[0] && text[..|line|] == line && text[|line| + |end|..] == rest;
    assert end == "\r" && rest != "" ==> text[|line| + 1] == rest[0];
  }

  /** The text of a file of these lines. */
  function FileOf(lines: seq<string>): string { if lines == [] then "" else lines[0] + "\n" + FileOf(lines[1..]) }

  /** Lines written one after another are read back, however many there are. */
  lemma {:induction false} WrittenLinesRead(lines: seq<string>)
    requires forall line, c :: line in lines && c in line ==> !Break(c)
    ensures SplitLines(FileOf(lines)) == lines
  {
    if lines != [] {
      assert lines[0] in lines;
      LineEnds(lines[0], "\n", FileOf(lines[1..]));
      WrittenLinesRead(lines[1..]);
      assert lines == [lines[0]] + lines[1..];
    }
  }

  /** And so they are from the bytes of the file. */
  lemma FileReadsBack(lines: seq<string>)
    requires forall line, c :: line in lines && c in line ==> !Break(c)
    ensures Lines(EncodeAll(FileOf(lines))) == lines
  {
    EncodedReads(FileOf(lines));
    WrittenLinesRead(lines);
  }

  // ---- _tail_jsonl() ----

  function Rest(lines: seq<string>): seq<string> { if lines == [] then [] else lines[1..] }

  function Lines(bytes: seq<Byte>): seq<string> { SplitLines(Decode(bytes)) }

  /** The lines of the last bytes of a file, less the first when something is cut off before it;
      a file that is missing or cannot be read has none. */
  function TailBy(file: Option<seq<Byte>>, most: nat, lines: seq<Byte> -> seq<string>): seq<string> {
    if file.None? then []
    else if |file.value| <= most then lines(file.value)
    else Rest(lines(file.value[|file.value| - most..]))
  }

  function Tail(file: Option<seq<Byte>>, most: nat): seq<string> { TailBy(file, most, Lines) }

  predicate IsSuffix<T(==)>(a: seq<T>, b: seq<T>)
    decreases b
  {
    a == b || (b != [] && IsSuffix(a, b[1..]))
  }

  /** What that means. */
  lemma {:induction false} SuffixSplits<T>(a: seq<T>, b: seq<T>) returns (before: seq<T>)
    requires IsSuffix(a, b)
    ensures before + a == b
    decreases b
  {
    if a == b {
      before := [];
    } else {
      var rest := SuffixSplits(a, b[1..]);
      before := [b[0]] + rest;
    }
  }

  // ---- A cut in the middle of a character ----

  lemma DecodeStep(bytes: seq<Byte>, n: nat, head: string, rest: string)
    requires bytes != [] && n == Width(bytes) && Decode(bytes[n..]) == head + rest
    ensures Decode(bytes) == ([CharOf(bytes)] + head) + rest
  {
  }

  predicate Continue(bytes: seq<Byte>, from: nat, to: nat)
    requires to <= |bytes|
  {
    forall i :: from <= i < to ==> Continues(bytes[i])
  }

  lemma ContinueShift(bytes: seq<Byte>, n: nat, from: nat, to: nat)
    requires n <= |bytes| && to <= |bytes[n..]| && Continue(bytes[n..], from, to)
    ensures Continue(bytes, from + n, to + n)
  {
    forall i | from + n <= i < to + n ensures Continues(bytes[i]) {
      assert bytes[i] == bytes[n..][i - n];
    }
  }

  /** From a cut on, the whole file decodes to some text and then like the bytes from the next
      whole character on; the tail decodes to replacements and then the same. */
  lemma {:induction false} Resync(bytes: seq<Byte>, cut: nat) returns (at: nat, head: string)
    requires cut <= |bytes|
    ensures cut <= at <= |bytes| && Decode(bytes) == head + Decode(bytes[at..]) && Continue(bytes, cut, at)
    decreases |bytes|
  {
    if cut == 0 {
      at, head := 0, "";
      assert bytes[0..] == bytes && "" + Decode(bytes) == Decode(bytes);
    } else if cut <= Width(bytes) {
      at, head := Width(bytes), [CharOf(bytes)];
    } else {
      var n := Width(bytes);
      var at', head' := Resync(bytes[n..], cut - n);
      at, head := at' + n, [CharOf(bytes)] + head';
      assert bytes[n..][at'..] == bytes[at..];
      DecodeStep(bytes, n, head', Decode(bytes[at..]));
      ContinueShift(bytes, n, cut - n, at');
    }
  }

  predicate Replaced(text: string) { forall i :: 0 <= i < |text| ==> text[i] == REPLACEMENT }

  lemma {:induction false} TailResync(bytes: seq<Byte>, k: nat) returns (head: string)
    requires k <= |bytes| && forall i :: 0 <= i < k ==> Continues(bytes[i])
    ensures Replaced(head) && Decode(bytes) == head + Decode(bytes[k..])
    decreases k
  {
    if k == 0 {
      head := "";
      assert bytes[0..] == bytes && "" + Decode(bytes) == Decode(bytes);
    } else {
      assert Width(bytes) == 1 && CharOf(bytes) == REPLACEMENT;
      var rest := TailResync(bytes[1..], k - 1);
      head := [REPLACEMENT] + rest;
      assert bytes[1..][k - 1..] == bytes[k..];
      DecodeStep(bytes, 1, rest, Decode(bytes[k..]));
    }
  }

  // ---- Lines after a cut ----

  lemma {:induction false} BreakShift(x: string, y: string, j: nat)
    requires j <= |y|
    ensures BreakFrom(x + y, |x| + j) == |x| + BreakFrom(y, j)
    decreases |y| - j
  {
    if j < |y| && !Break(y[j]) { BreakShift(x, y, j + 1); }
  }

  lemma {:induction false} BreakInside(x: string, y: string, i: nat)
    requires i <= |x|
    ensures BreakFrom(x + y, i) == if BreakFrom(x, i) < |x| then BreakFrom(x, i) else |x| + BreakFrom(y, 0)
    decreases |x| - i
  {
    if i == |x| {
      BreakShift(x, y, 0);
    } else if !Break(x[i]) {
      BreakInside(x, y, i + 1);
    }
  }

  lemma BreakConcat(x: string, y: string)
    ensures FirstBreak(x + y) == if FirstBreak(x) < |x| then FirstBreak(x) else |x| + FirstBreak(y)
  {
    BreakInside(x, y, 0);
  }

  /** Whether a line may start between the two. */
  predicate LineStarts(x: string, y: string) {
    x == "" || (Break(x[|x| - 1]) && !(x[|x| - 1] == '\r' && y != "" && y[0] == '\n'))
  }

  lemma {:induction false} EndsBroken(x: string, i: nat)
    requires i < |x| && Break(x[|x| - 1])
    ensures BreakFrom(x, i) < |x| && Break(x[BreakFrom(x, i)])
    decreases |x| - i
  {
    if !Break(x[i]) { EndsBroken(x, i + 1); }
  }

  /** A text split where a line starts gives the lines of both parts. */
  lemma {:induction false} SplitAtLine(x: string, y: string)
    requires LineStarts(x, y)
    ensures SplitLines(x + y) == SplitLines(x) + SplitLines(y)
    decreases |x|
  {
    if x == "" {
      assert x + y == y;
    } else {
      var i := FirstBreak(x);
      EndsBroken(x, 0);
      BreakConcat(x, y);
      var n := NextLine(x);
      assert NextLine(x + y) == n && (x + y)[n..] == x[n..] + y && (x + y)[..i] == x[..i];
      SplitAtLine(x[n..], y);
      Assoc([x[..i]], SplitLines(x[n..]), SplitLines(y));
    }
  }

  lemma DropConcat<T>(a: seq<T>, b: seq<T>, n: nat)
    requires n <= |b|
    ensures (a + b)[|a| + n..] == b[n..]
  {
  }

  lemma {:induction false} SuffixOfConcat<T>(a: seq<T>, b: seq<T>)
    ensures IsSuffix(b, a + b)
  {
    if a == [] {
      assert a + b == b;
    } else {
      assert (a + b)[1..] == a[1..] + b;
      SuffixOfConcat(a[1..], b);
    }
  }

  lemma {:induction false} ReplacedHasNone(f: string, i: nat)
    requires Replaced(f) && i <= |f|
    ensures BreakFrom(f, i) == |f|
    decreases |f| - i
  {
    if i < |f| { ReplacedHasNone(f, i + 1); }
  }

  lemma NextLineShift(f: string, t: string)
    requires FirstBreak(f) == |f| && FirstBreak(t) < |t|
    ensures FirstBreak(f + t) == |f| + FirstBreak(t) && NextLine(f + t) == |f| + NextLine(t)
  {
    BreakConcat(f, t);
  }

  lemma RestOfUnbroken(text: string)
    requires FirstBreak(text) == |text|
    ensures Rest(SplitLines(text)) == []
  {
  }

  lemma RestAt(text: string, t: string, n: nat)
    requires FirstBreak(text) < |text| && NextLine(text) == n && text[n..] == t
    ensures Rest(SplitLines(text)) == SplitLines(t)
  {
  }

  /** What follows the first break of a text that starts with no break. */
  lemma AfterFirst(f: string, t: string)
    requires Replaced(f)
    ensures Rest(SplitLines(f + t)) == if FirstBreak(t) < |t| then SplitLines(t[NextLine(t)..]) else []
  {
    ReplacedHasNone(f, 0);
    if FirstBreak(t) < |t| {
      NextLineShift(f, t);
      DropConcat(f, t, NextLine(t));
      RestAt(f + t, t[NextLine(t)..], |f| + NextLine(t));
    } else {
      BreakConcat(f, t);
      RestOfUnbroken(f + t);
    }
  }

  lemma NextLineIs(t: string)
    requires FirstBreak(t) < |t|
    ensures var n := NextLine(t); Break(t[n - 1]) && !(t[n - 1] == '\r' && n < |t| && t[n] == '\n')
  {
    BreakIsBreak(t, 0);
  }

  lemma LineStartsAt(x: string, t: string, n: nat)
    requires 0 < n <= |t| && Break(t[n - 1]) && !(t[n - 1] == '\r' && n < |t| && t[n] == '\n')
    ensures LineStarts(x + t[..n], t[n..])
  {
  }

  lemma {:induction false} BreakIsBreak(t: string, i: nat)
    requires i <= |t| && BreakFrom(t, i) < |t|
    ensures Break(t[BreakFrom(t, i)])
    decreases |t| - i
  {
    if !Break(t[i]) { BreakIsBreak(t, i + 1); }
  }

  lemma SuffixFromLine(x: string, u: string, r: string, t: string)
    requires LineStarts(x + u, r) && t == u + r
    ensures IsSuffix(SplitLines(r), SplitLines(x + t))
  {
    Assoc(x, u, r);
    SplitAtLine(x + u, r);
    SuffixOfConcat(SplitLines(x + u), SplitLines(r));
  }

  lemma TakeDrop<T>(t: seq<T>, n: nat)
    requires n <= |t|
    ensures t[..n] + t[n..] == t
  {
  }

  lemma EmptyIsSuffix<T>(s: seq<T>)
    ensures IsSuffix([], s)
  {
    SuffixOfConcat(s, []);
    assert s + [] == s;
  }

  lemma SuffixAfterBreak(x: string, t: string)
    requires FirstBreak(t) < |t|
    ensures IsSuffix(SplitLines(t[NextLine(t)..]), SplitLines(x + t))
  {
    var n := NextLine(t);
    TakeDrop(t, n);
    NextLineIs(t);
    LineStartsAt(x, t, n);
    SuffixFromLine(x, t[..n], t[n..], t);
  }

  /** Two texts that end alike, the second starting with no break, have the same lines after the
      first of the second. */
  lemma SuffixLines(x: string, f: string, t: string)
    requires Replaced(f)
    ensures IsSuffix(Rest(SplitLines(f + t)), SplitLines(x + t))
  {
    AfterFirst(f, t);
    if FirstBreak(t) == |t| { EmptyIsSuffix(SplitLines(x + t)); } else { SuffixAfterBreak(x, t); }
  }

  /** The whole file and its tail decode to texts that end alike, the tail's starting with
      replacements only. */
  lemma CutDecodes(bytes: seq<Byte>, cut: nat) returns (head: string, cutHead: string, t: string)
    requires cut <= |bytes|
    ensures Decode(bytes) == head + t && Decode(bytes[cut..]) == cutHead + t && Replaced(cutHead)
  {
    var at, found := Resync(bytes, cut);
    head := found;
    DropDrop(bytes, cut, at - cut);
    forall i | 0 <= i < at - cut ensures Continues(bytes[cut..][i]) {
      assert bytes[cut..][i] == bytes[cut + i];
    }
    cutHead := TailResync(bytes[cut..], at - cut);
    t := Decode(bytes[at..]);
  }

  lemma DropDrop<T>(s: seq<T>, m: nat, n: nat)
    requires m + n <= |s|
    ensures s[m..][n..] == s[m + n..]
  {
  }

  lemma SuffixOfTexts(whole: string, tail: string, head: string, cutHead: string, t: string)
    requires whole == head + t && tail == cutHead + t && Replaced(cutHead)
    ensures IsSuffix(Rest(SplitLines(tail)), SplitLines(whole))
  {
    SuffixLines(head, cutHead, t);
  }

  lemma CutIsSuffix(bytes: seq<Byte>, cut: nat)
    requires cut <= |bytes|
    ensures IsSuffix(Rest(Lines(bytes[cut..])), Lines(bytes))
  {
    var head, cutHead, t := CutDecodes(bytes, cut);
    SuffixOfTexts(Decode(bytes), Decode(bytes[cut..]), head, cutHead, t);
  }

  lemma SuffixByCuts(bytes: seq<Byte>, most: nat, lines: seq<Byte> -> seq<string>)
    requires forall cut :: 0 <= cut <= |bytes| ==> IsSuffix(Rest(lines(bytes[cut..])), lines(bytes))
    ensures IsSuffix(TailBy(Some(bytes), most, lines), lines(bytes))
    ensures |bytes| <= most ==> TailBy(Some(bytes), most, lines) == lines(bytes)
  {
  }

  /** The window is always a suffix of the file's list of whole lines, and all of it when the
      file fits, wherever the cut falls: inside a line, between two, or inside a character. */
  lemma TailIsSuffix(bytes: seq<Byte>, most: nat)
    ensures IsSuffix(Tail(Some(bytes), most), Lines(bytes))
    ensures |bytes| <= most ==> Tail(Some(bytes), most) == Lines(bytes)
  {
    forall cut | 0 <= cut <= |bytes| ensures IsSuffix(Rest(Lines(bytes[cut..])), Lines(bytes)) {
      CutIsSuffix(bytes, cut);
    }
    SuffixByCuts(bytes, most, Lines);
  }

  // ---- What the window holds ----

  /** The bytes end a line, as every line of a JSONL file is ended. */
  predicate EndsLine(bytes: seq<Byte>) { bytes != [] && bytes[|bytes| - 1] == 10 }

  lemma WidthConcat(x: seq<Byte>, y: seq<Byte>)
    requires EndsLine(x)
    ensures Width(x + y) == Width(x) && CharOf(x + y) == CharOf(x)
  {
    var last := x[|x| - 1];
    assert (x + y)[0] == x[0];
    assert |x| >= 2 ==> (x + y)[1] == x[1];
    assert |x| >= 3 ==> (x + y)[2] == x[2];
    assert |x| >= 4 ==> (x + y)[3] == x[3];
    assert !Continues(last) && (|x| == 2 ==> !SecondFits(x[0], x[1]));
  }

  /** A line feed ends a character, so what stands before it and behind it decode on their own. */
  lemma {:induction false} DecodeConcat(x: seq<Byte>, y: seq<Byte>)
    requires EndsLine(x)
    ensures Decode(x + y) == Decode(x) + Decode(y)
    ensures Decode(x) != "" && Decode(x)[|Decode(x)| - 1] == '\n'
    decreases |x|
  {
    var n := Width(x);
    WidthConcat(x, y);
    assert (x + y)[n..] == x[n..] + y;
    if n == |x| {
      assert n == 1 ==> CharOf(x) == '\n';
      assert x[n..] + y == y && Decode(x) == [CharOf(x)];
    } else {
      DecodeConcat(x[n..], y);
      Assoc([CharOf(x)], Decode(x[n..]), Decode(y));
    }
  }

  /** Whole lines in front of others are lines of their own. */
  lemma LinesConcat(x: seq<Byte>, y: seq<Byte>)
    requires EndsLine(x)
    ensures Lines(x + y) == Lines(x) + Lines(y) && Lines(x) != []
  {
    DecodeConcat(x, y);
    SplitAtLine(Decode(x), Decode(y));
  }

  lemma DropInside<T>(a: seq<T>, b: seq<T>, cut: nat)
    requires cut <= |a|
    ensures (a + b)[cut..] == a[cut..] + b
  {
  }

  lemma TailOver(bytes: seq<Byte>, most: nat)
    requires |bytes| > most
    ensures Tail(Some(bytes), most) == Rest(Lines(bytes[|bytes| - most..]))
  {
  }

  lemma RestConcat(a: seq<string>, b: seq<string>)
    requires a != []
    ensures Rest(a + b) == a[1..] + b
  {
  }

  /** Of a file over the bound, cut inside bytes that end a line, the window is what follows the
      first line behind the cut: all the lines of that part but the first, and all that come after. */
  lemma WindowIs(a: seq<Byte>, b: seq<Byte>, most: nat)
    requires EndsLine(a) && |b| < most < |a + b|
    ensures var part := a[|a + b| - most..];
            EndsLine(part) && Lines(part) != [] && Tail(Some(a + b), most) == Lines(part)[1..] + Lines(b)
  {
    var cut := |a + b| - most;
    var part := a[cut..];
    DropInside(a, b, cut);
    LinesConcat(part, b);
    RestConcat(Lines(part), Lines(b));
    TailOver(a + b, most);
  }

  /** Every line that starts behind the cut is in the window, whole and in its place. */
  lemma WindowHolds(a: seq<Byte>, b: seq<Byte>, most: nat)
    requires EndsLine(a) && |b| < most
    ensures IsSuffix(Lines(b), Tail(Some(a + b), most))
  {
    if |a + b| <= most {
      LinesConcat(a, b);
      SuffixOfConcat(Lines(a), Lines(b));
    } else {
      WindowIs(a, b, most);
      SuffixOfConcat(Lines(a[|a + b| - most..])[1..], Lines(b));
    }
  }

  /** A line that starts exactly at the cut is dropped, as one cut in two would be. */
  lemma LineAtTheCutIsDropped(a: seq<Byte>, b: seq<Byte>)
    requires a != []
    ensures Tail(Some(a + b), |b|) == if Lines(b) == [] then [] else Lines(b)[1..]
  {
    assert (a + b)[|a|..] == b;
  }

  /** A file that is missing, and an empty one, have no lines. */
  lemma NoFileNoLines(most: nat)
    ensures Tail(None, most) == [] && Tail(Some([]), most) == []
  {
  }
}
