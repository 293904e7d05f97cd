/** Editing one key of the .env file (blueprints/admin.py, _set_env_value): what the edit does to the
    text, and what readers of the file then see. */
module EnvEditor {
  import opened Wrappers
  import opened Text

  // ---- Lines, as read_text() and splitlines(keepends=True) give them ----

  /** How many characters of the file the next character read stands for. */
  function Width(raw: string): nat { if |raw| > 1 && raw[0] == '\r' && raw[1] == '\n' then 2 else 1 }

  /** Universal newlines. */
  function ReadText(raw: string): string {
    if raw == "" then "" else [if raw[0] == '\r' then '\n' else raw[0]] + ReadText(raw[Width(raw)..])
  }

  /** How long the first line is, its end included. */
  function FirstLine(text: string): (n: nat)
    ensures n <= |text| && (text != "" ==> n > 0)
  {
    if text == "" then 0 else if Sep(text[0]) then 1 else 1 + FirstLine(text[1..])
  }

  function SplitLines(text: string): seq<string> {
    if text == "" then [] else [text[..FirstLine(text)]] + SplitLines(text[FirstLine(text)..])
  }

  function Join(lines: seq<string>): string { if lines == [] then "" else lines[0] + Join(lines[1..]) }

  predicate Ended(text: string) { text == "" || Sep(text[|text| - 1]) }

  lemma {:induction false} FirstLineIs(text: string)
    requires text != ""
    ensures var n := FirstLine(text);
            (forall i :: 0 <= i < n - 1 ==> !Sep(text[i])) && (n == |text| || Sep(text[n - 1]))
  {
    if !Sep(text[0]) && |text| > 1 { FirstLineIs(text[1..]); }
  }

  lemma {:induction false} JoinSplit(text: string)
    ensures Join(SplitLines(text)) == text
  {
    if text != "" {
      JoinSplit(text[FirstLine(text)..]);
      assert SplitLines(text)[1..] == SplitLines(text[FirstLine(text)..]);
    }
  }

  lemma {:induction false} FirstLineConcat(x: string, y: string)
    requires x != "" && Ended(x)
    ensures FirstLine(x + y) == FirstLine(x)
  {
    assert (x + y)[1..] == x[1..] + y;
    if !Sep(x[0]) { FirstLineConcat(x[1..], y); }
  }

  /** A text that ends a line splits on its own. */
  lemma {:induction false} SplitConcat(x: string, y: string)
    requires Ended(x)
    ensures SplitLines(x + y) == SplitLines(x) + SplitLines(y)
  {
    if x == "" {
      assert x + y == y;
    } else {
      var n := FirstLine(x);
      FirstLineConcat(x, y);
      assert (x + y)[n..] == x[n..] + y && (x + y)[..n] == x[..n];
      SplitConcat(x[n..], y);
      Assoc([x[..n]], SplitLines(x[n..]), SplitLines(y));
    }
  }

  lemma {:induction false} JoinConcat(a: seq<string>, b: seq<string>)
    ensures Join(a + b) == Join(a) + Join(b)
  {
    if a == [] {
      assert a + b == b;
    } else {
      assert (a + b)[1..] == a[1..] + b;
      JoinConcat(a[1..], b);
    }
  }

  predicate WholeLine(line: string) { line != "" && forall i :: 0 <= i < |line| - 1 ==> !Sep(line[i]) }

  /** A list of lines that splitting gave: whole, and all but the last ended. */
  predicate Proper(lines: seq<string>) {
    lines == [] || (WholeLine(lines[0]) && (|lines| == 1 || Ended(lines[0])) && Proper(lines[1..]))
  }

  lemma {:induction false} SplitIsProper(text: string)
    ensures Proper(SplitLines(text))
  {
    if text != "" {
      FirstLineIs(text);
      SplitIsProper(text[FirstLine(text)..]);
      assert SplitLines(text)[1..] == SplitLines(text[FirstLine(text)..]);
    }
  }

  /** One whole line splits into itself. */
  lemma {:induction false} OneLine(line: string)
    requires WholeLine(line)
    ensures FirstLine(line) == |line| && SplitLines(line) == [line]
  {
    if |line| > 1 {
      assert forall i :: 0 <= i < |line[1..]| - 1 ==> line[1..][i] == line[i + 1];
      OneLine(line[1..]);
    }
    assert line[|line|..] == "" && line[..|line|] == line;
  }

  lemma {:induction false} SplitJoin(lines: seq<string>)
    requires Proper(lines)
    ensures SplitLines(Join(lines)) == lines
  {
    if lines != [] {
      OneLine(lines[0]);
      SplitJoin(lines[1..]);
      if |lines| == 1 {
        assert Join(lines) == lines[0];
      } else {
        SplitConcat(lines[0], Join(lines[1..]));
      }
    }
  }

  /** Before its last line a proper list is proper and ends a line. */
  lemma {:induction false} ProperPrefix(lines: seq<string>, i: nat)
    requires Proper(lines) && i < |lines|
    ensures Proper(lines[..i]) && Ended(Join(lines[..i]))
  {
    if i > 0 {
      ProperPrefix(lines[1..], i - 1);
      assert lines[..i][1..] == lines[1..][..i - 1];
      assert Join(lines[..i]) == lines[0] + Join(lines[1..][..i - 1]);
    }
  }

  lemma {:induction false} ProperSuffix(lines: seq<string>, i: nat)
    requires Proper(lines) && i <= |lines|
    ensures Proper(lines[i..])
  {
    if i > 0 {
      ProperSuffix(lines[1..], i - 1);
      assert lines[i..] == lines[1..][i - 1..];
    } else {
      assert lines[0..] == lines;
    }
  }

  lemma {:induction false} ReadConcat(x: string, y: string)
    requires x == "" || x[|x| - 1] != '\r'
    ensures ReadText(x + y) == ReadText(x) + ReadText(y)
  {
    if x == "" {
      assert x + y == y;
    } else {
      var n := Width(x);
      assert Width(x + y) == n && (x + y)[n..] == x[n..] + y;
      ReadConcat(x[n..], y);
    }
  }

  lemma {:induction false} ReadPlain(text: string)
    requires '\r' !in text
    ensures ReadText(text) == text
  {
    if text != "" { ReadPlain(text[1..]); }
  }

  lemma {:induction false} ReadIsPlain(raw: string)
    ensures '\r' !in ReadText(raw)
  {
    if raw != "" { ReadIsPlain(raw[Width(raw)..]); }
  }

  lemma EndRead(end: string, rest: string)
    requires end in {"\n", "\r\n", "\r"} && (end == "\r" && rest != "" ==> rest[0] != '\n')
    ensures ReadText(end + rest) == ['\n'] + ReadText(rest)
  {
    var text := end + rest;
    assert text[0] == end[0] && text[|end|..] == rest;
    if |end| == 2 {
      assert text[1] == '\n';
    } else if rest != "" {
      assert text[1] == rest[0];
    }
    assert Width(text) == |end|;
  }

  /** Each way a line can end in the file is read as one newline. */
  lemma EndIsNewline(line: string, end: string, rest: string)
    requires '\r' !in line && end in {"\n", "\r\n", "\r"} && (end == "\r" && rest != "" ==> rest[0] != '\n')
    ensures ReadText(line + end + rest) == line + "\n" + ReadText(rest)
  {
    Assoc(line, end, rest);
    ReadConcat(line, end + rest);
    ReadPlain(line);
    EndRead(end, rest);
    Assoc(line, "\n", ReadText(rest));
  }

  function Lines(raw: string): seq<string> { SplitLines(ReadText(raw)) }

  // ---- The edit ----

  predicate KeyChar(c: char) { 'A' <= c <= 'Z' || '0' <= c <= '9' || c == '_' }

  predicate CleanKey(key: string) {
    key != "" && 'A' <= key[0] <= 'Z' && forall c :: c in key ==> KeyChar(c)
  }

  /** _ENV_KEY_PATTERN: its end also matches before one final newline. */
  predicate KeyAccepted(key: string) {
    CleanKey(key) || (|key| > 1 && key[|key| - 1] == '\n' && CleanKey(key[..|key| - 1]))
  }

  predicate ValueAccepted(value: string) { '\'' !in value && '\\' !in value && '\n' !in value }

  /** No character that ends a line, for any reader. */
  predicate CleanValue(value: string) {
    ValueAccepted(value) && '\r' !in value && forall c :: c in value ==> !Sep(c)
  }

  /** The pattern ^\s*KEY\s*= at the start of a line. */
  predicate Assigns(line: string, key: string) {
    var body := StripLeft(line);
    key <= body && var rest := StripLeft(body[|key|..]); rest != "" && rest[0] == '='
  }

  /** What a single-quoted assignment gives. */
  function Unquote(s: string): string {
    if |s| >= 2 && s[0] == '\'' && s[|s| - 1] == '\'' then s[1..|s| - 1] else s
  }

  function ValueIn(line: string, key: string): string
    requires Assigns(line, key)
  {
    Unquote(Strip(StripLeft(StripLeft(line)[|key|..])[1..]))
  }

  function NewLine(key: string, value: string): string { key + " = '" + value + "'\n" }

  /** The first line assigning the key, or how many lines there are. */
  function FirstAt(lines: seq<string>, key: string): (i: nat)
    ensures i <= |lines|
  {
    if lines == [] || Assigns(lines[0], key) then 0 else 1 + FirstAt(lines[1..], key)
  }

  /** The lines with a final newline added when it is missing. */
  function Finished(lines: seq<string>): seq<string> {
    if lines == [] then []
    else
      var last := lines[|lines| - 1];
      if last == "" || !Ended(last) then lines[..|lines| - 1] + [last + "\n"]
      else if last[|last| - 1] == '\n' then lines
      else lines + ["\n"]
  }

  function Edited(lines: seq<string>, key: string, line: string): seq<string> {
    var i := FirstAt(lines, key);
    if i < |lines| then lines[i := line] else Finished(lines) + [line]
  }

  /** The file after the edit. */
  function Set(raw: string, key: string, value: string): string {
    Join(Edited(Lines(raw), key, NewLine(key, value)))
  }

  function ValueAt(lines: seq<string>, i: nat, key: string): Option<string>
    requires i <= |lines| && (i < |lines| ==> Assigns(lines[i], key))
  {
    if i < |lines| then Some(ValueIn(lines[i], key)) else None
  }

  lemma {:induction false} FirstAtIs(lines: seq<string>, key: string)
    ensures var i := FirstAt(lines, key);
            (i < |lines| ==> Assigns(lines[i], key)) && forall j :: 0 <= j < i ==> !Assigns(lines[j], key)
  {
    if lines != [] && !Assigns(lines[0], key) { FirstAtIs(lines[1..], key); }
  }

  lemma {:induction false} FirstAtUnique(lines: seq<string>, key: string, i: nat)
    requires i <= |lines| && (i < |lines| ==> Assigns(lines[i], key))
    requires forall j :: 0 <= j < i ==> !Assigns(lines[j], key)
    ensures FirstAt(lines, key) == i
  {
    if i > 0 { FirstAtUnique(lines[1..], key, i - 1); }
  }

  /** What the first assignment of a key in these lines says. */
  function Says(lines: seq<string>, key: string): Option<string> {
    FirstAtIs(lines, key);
    ValueAt(lines, FirstAt(lines, key), key)
  }

  /** What a reader of the file that takes the first assignment sees. */
  function Get(raw: string, key: string): Option<string> { Says(Lines(raw), key) }

  // ---- Keys, and the line that assigns one ----

  lemma KeyChars(key: string)
    requires CleanKey(key)
    ensures forall i :: 0 <= i < |key| ==> KeyChar(key[i])
  {
  }

  /** After the key comes something no key holds. */
  lemma KeyEnds(line: string, key: string)
    requires Assigns(line, key)
    ensures |key| < |StripLeft(line)| && !KeyChar(StripLeft(line)[|key|])
  {
  }

  /** A line assigns at most one key. */
  lemma AssignsOneKey(line: string, a: string, b: string)
    requires CleanKey(a) && CleanKey(b) && Assigns(line, a) && Assigns(line, b)
    ensures a == b
  {
    var body := StripLeft(line);
    KeyEnds(line, a);
    KeyEnds(line, b);
    KeyChars(a);
    KeyChars(b);
    assert forall i :: 0 <= i < |a| ==> a[i] == body[i];
    assert forall i :: 0 <= i < |b| ==> b[i] == body[i];
  }

  lemma StripLeftStays(s: string)
    requires s != "" && !IsSpace(s[0])
    ensures StripLeft(s) == s
  {
  }

  lemma {:induction false} StripLeftSnoc(s: string, c: char)
    requires IsSpace(c)
    ensures StripLeft(s + [c]) == if StripLeft(s) == "" then "" else StripLeft(s) + [c]
  {
    if s == "" {
      assert s + [c] == [c] && [c][1..] == "";
    } else {
      assert (s + [c])[1..] == s[1..] + [c];
      StripLeftSnoc(s[1..], c);
    }
  }

  lemma StripSnoc(s: string, c: char)
    requires IsSpace(c)
    ensures Strip(s + [c]) == Strip(s)
  {
    StripLeftSnoc(s, c);
    assert (StripLeft(s) + [c])[..|StripLeft(s)|] == StripLeft(s);
  }

  /** A final newline more or less changes nothing a line says. */
  lemma NewlineSaysNothing(line: string, key: string)
    requires CleanKey(key)
    ensures Assigns(line + "\n", key) <==> Assigns(line, key)
    ensures Assigns(line, key) ==> ValueIn(line + "\n", key) == ValueIn(line, key)
  {
    var body := StripLeft(line);
    StripLeftSnoc(line, '\n');
    KeyChars(key);
    if key <= body {
      var rest := body[|key|..];
      assert (body + "\n")[|key|..] == rest + "\n";
      StripLeftSnoc(rest, '\n');
      if StripLeft(rest) != "" {
        var after := StripLeft(rest)[1..];
        assert (StripLeft(rest) + "\n")[1..] == after + "\n";
        StripSnoc(after, '\n');
      }
    }
  }

  /** Where a line that starts with the assignment's head gets its value from. */
  lemma HeadAssigns(key: string, rest: string)
    requires CleanKey(key)
    ensures Assigns(key + " = " + rest, key)
    ensures ValueIn(key + " = " + rest, key) == Unquote(Strip(rest))
  {
    var line := key + " = " + rest;
    assert line[0] == key[0];
    StripLeftStays(line);
    assert line[|key|..] == " = " + rest;
    assert (" = " + rest)[1..] == "= " + rest;
    StripLeftStays("= " + rest);
    assert ("= " + rest)[1..] == " " + rest;
    assert (" " + rest)[1..] == rest;
  }

  lemma NewLineSays(key: string, value: string)
    requires CleanKey(key)
    ensures Assigns(NewLine(key, value), key) && ValueIn(NewLine(key, value), key) == value
  {
    var quoted := "'" + value + "'";
    assert NewLine(key, value) == key + " = " + (quoted + "\n");
    HeadAssigns(key, quoted + "\n");
    StripSnoc(quoted, '\n');
    StripLeftStays(quoted);
    assert quoted[1..|quoted| - 1] == value;
  }

  lemma NewLineIsOne(key: string, value: string)
    requires CleanKey(key) && CleanValue(value)
    ensures WholeLine(NewLine(key, value)) && Ended(NewLine(key, value)) && '\r' !in NewLine(key, value)
  {
    var line := NewLine(key, value);
    assert forall i :: 0 <= i < |key| ==> line[i] == key[i] && key[i] in key;
    assert forall i :: 0 <= i < |value| ==> line[|key| + 4 + i] == value[i] && value[i] in value;
    assert line[|key|..|key| + 4] == " = '";
    assert forall i :: 0 <= i < |line| - 1 ==> !Sep(line[i]) && line[i] != '\r';
  }

  // ---- What the edit does to the lines ----

  lemma {:induction false} ProperUpdate(lines: seq<string>, i: nat, line: string)
    requires Proper(lines) && i < |lines| && WholeLine(line) && Ended(line)
    ensures Proper(lines[i := line])
  {
    if i > 0 {
      ProperUpdate(lines[1..], i - 1, line);
      assert lines[i := line][1..] == lines[1..][i - 1 := line];
    } else {
      assert lines[0 := line][1..] == lines[1..];
    }
  }

  lemma {:induction false} ProperSnoc(lines: seq<string>, line: string)
    requires Proper(lines) && WholeLine(line) && (lines != [] ==> Ended(lines[|lines| - 1]))
    ensures Proper(lines + [line])
  {
    if lines != [] {
      ProperSnoc(lines[1..], line);
      assert (lines + [line])[1..] == lines[1..] + [line];
    }
  }

  lemma {:induction false} LastWhole(lines: seq<string>)
    requires Proper(lines) && lines != []
    ensures WholeLine(lines[|lines| - 1])
  {
    if |lines| > 1 { LastWhole(lines[1..]); }
  }

  lemma {:induction false} EndedBeforeLast(lines: seq<string>, i: nat)
    requires Proper(lines) && i < |lines| - 1
    ensures Ended(lines[i])
  {
    if i > 0 { EndedBeforeLast(lines[1..], i - 1); }
  }

  lemma ProperFinished(lines: seq<string>)
    requires Proper(lines)
    ensures Proper(Finished(lines)) && (Finished(lines) != [] ==> Ended(Finished(lines)[|Finished(lines)| - 1]))
  {
    if lines != [] {
      var init, last := lines[..|lines| - 1], lines[|lines| - 1];
      LastWhole(lines);
      if !Ended(last) {
        ProperPrefix(lines, |lines| - 1);
        if init != [] { EndedBeforeLast(lines, |init| - 1); }
        assert WholeLine(last + "\n");
        ProperSnoc(init, last + "\n");
      } else if last[|last| - 1] != '\n' {
        ProperSnoc(lines, "\n");
      }
    }
  }

  predicate PlainAll(lines: seq<string>) { forall line :: line in lines ==> '\r' !in line }

  lemma {:induction false} JoinPlain(lines: seq<string>)
    requires PlainAll(lines)
    ensures '\r' !in Join(lines)
  {
    if lines != [] {
      assert lines[0] in lines;
      JoinPlain(lines[1..]);
    }
  }

  lemma {:induction false} SplitPlain(text: string)
    requires '\r' !in text
    ensures PlainAll(SplitLines(text))
  {
    if text != "" { SplitPlain(text[FirstLine(text)..]); }
  }

  lemma LinesGood(raw: string)
    ensures Proper(Lines(raw)) && PlainAll(Lines(raw))
  {
    ReadIsPlain(raw);
    SplitIsProper(ReadText(raw));
    SplitPlain(ReadText(raw));
  }

  lemma FinishedPlain(lines: seq<string>)
    requires PlainAll(lines)
    ensures PlainAll(Finished(lines))
  {
  }

  lemma LinesOfJoin(lines: seq<string>)
    requires Proper(lines) && PlainAll(lines)
    ensures Lines(Join(lines)) == lines
  {
    JoinPlain(lines);
    ReadPlain(Join(lines));
    SplitJoin(lines);
  }

  /** The first line assigning the key becomes the new assignment, or it is added at the end;
      every other line keeps its content and its place. */
  lemma SetLines(raw: string, key: string, value: string)
    requires CleanKey(key) && CleanValue(value)
    ensures var i := FirstAt(Lines(raw), key);
            Lines(Set(raw, key, value)) ==
            if i < |Lines(raw)| then Lines(raw)[i := NewLine(key, value)]
            else Finished(Lines(raw)) + [NewLine(key, value)]
  {
    var lines, line := Lines(raw), NewLine(key, value);
    LinesGood(raw);
    NewLineIsOne(key, value);
    ProperFinished(lines);
    FinishedPlain(lines);
    var i := FirstAt(lines, key);
    if i < |lines| { ProperUpdate(lines, i, line); } else { ProperSnoc(Finished(lines), line); }
    LinesOfJoin(Edited(lines, key, line));
  }

  /** Any edit leaves the whole file with plain newlines, whatever it had. */
  lemma LineEndsNormalised(raw: string, key: string, value: string)
    requires CleanKey(key) && CleanValue(value)
    ensures '\r' !in Set(raw, key, value)
  {
    var lines, line := Lines(raw), NewLine(key, value);
    LinesGood(raw);
    FinishedPlain(lines);
    NewLineIsOne(key, value);
    JoinPlain(Edited(lines, key, line));
  }

  lemma EditedFirst(lines: seq<string>, key: string, line: string)
    requires CleanKey(key) && Assigns(line, key)
    ensures var i, after := FirstAt(lines, key), Edited(lines, key, line);
            FirstAt(after, key) < |after| && after[FirstAt(after, key)] == line &&
            FirstAt(after, key) == if i < |lines| then i else |after| - 1
  {
    var i, after := FirstAt(lines, key), Edited(lines, key, line);
    FirstAtIs(lines, key);
    if i == |lines| && lines != [] {
      var last := lines[|lines| - 1];
      NewlineSaysNothing(last, key);
      NewlineSaysNothing("", key);
      assert "" + "\n" == "\n";
    }
    FirstAtUnique(after, key, if i < |lines| then i else |after| - 1);
  }

  /** Setting a key and reading it gives the value set. */
  lemma SetReads(raw: string, key: string, value: string)
    requires CleanKey(key) && CleanValue(value)
    ensures Get(Set(raw, key, value), key) == Some(value)
  {
    SetLines(raw, key, value);
    NewLineSays(key, value);
    EditedFirst(Lines(raw), key, NewLine(key, value));
  }

  lemma FinishedEach(lines: seq<string>, key: string, j: nat)
    requires CleanKey(key) && j < |Finished(lines)|
    ensures |lines| <= |Finished(lines)|
    ensures Assigns(Finished(lines)[j], key) <==> j < |lines| && Assigns(lines[j], key)
    ensures j < |lines| && Assigns(lines[j], key) ==> ValueIn(Finished(lines)[j], key) == ValueIn(lines[j], key)
  {
    if j == |lines| - 1 {
      NewlineSaysNothing(lines[j], key);
    } else if j == |lines| {
      NewlineSaysNothing("", key);
      assert "" + "\n" == "\n";
    }
  }

  lemma FinishedSays(lines: seq<string>, key: string)
    requires CleanKey(key)
    ensures var i, after := FirstAt(lines, key), Finished(lines);
            FirstAt(after, key) == (if i < |lines| then i else |after|) &&
            (i < |lines| ==> Assigns(lines[i], key) && Assigns(after[i], key) &&
                             ValueIn(after[i], key) == ValueIn(lines[i], key))
  {
    var i, after := FirstAt(lines, key), Finished(lines);
    FirstAtIs(lines, key);
    if i < |lines| { FinishedEach(lines, key, i); }
    forall j: nat | j < |after| && j < (if i < |lines| then i else |after|) ensures !Assigns(after[j], key) {
      FinishedEach(lines, key, j);
    }
    FirstAtUnique(after, key, if i < |lines| then i else |after|);
  }

  lemma {:induction false} FirstAtSnoc(lines: seq<string>, line: string, key: string)
    requires !Assigns(line, key)
    ensures FirstAt(lines + [line], key) ==
            if FirstAt(lines, key) < |lines| then FirstAt(lines, key) else |lines| + 1
  {
    if lines == [] {
      assert [] + [line] == [line] && [line][1..] == [];
    } else {
      assert (lines + [line])[1..] == lines[1..] + [line];
      if !Assigns(lines[0], key) { FirstAtSnoc(lines[1..], line, key); }
    }
  }

  lemma UpdateElsewhere(lines: seq<string>, key: string, line: string, other: string)
    requires CleanKey(key) && CleanKey(other) && other != key && !Assigns(line, other)
    requires FirstAt(lines, key) < |lines|
    ensures var after := lines[FirstAt(lines, key) := line];
            FirstAt(after, other) == FirstAt(lines, other) &&
            (FirstAt(lines, other) < |lines| ==> after[FirstAt(lines, other)] == lines[FirstAt(lines, other)])
  {
    var i, j := FirstAt(lines, key), FirstAt(lines, other);
    FirstAtIs(lines, key);
    FirstAtIs(lines, other);
    assert i != j by { if i == j { AssignsOneKey(lines[i], key, other); } }
    FirstAtUnique(lines[i := line], other, j);
  }

  lemma UpdatedSays(lines: seq<string>, key: string, line: string, other: string)
    requires CleanKey(key) && CleanKey(other) && other != key && !Assigns(line, other)
    requires FirstAt(lines, key) < |lines|
    ensures Says(lines[FirstAt(lines, key) := line], other) == Says(lines, other)
  {
    UpdateElsewhere(lines, key, line, other);
  }

  lemma AddedSays(lines: seq<string>, line: string, other: string)
    requires CleanKey(other) && !Assigns(line, other)
    ensures Says(Finished(lines) + [line], other) == Says(lines, other)
  {
    var after := Finished(lines);
    FinishedSays(lines, other);
    FirstAtSnoc(after, line, other);
    if FirstAt(lines, other) < |lines| {
      assert (after + [line])[FirstAt(after, other)] == after[FirstAt(after, other)];
    }
  }

  /** Setting one key changes what no other key reads. */
  lemma SetKeepsOthers(raw: string, key: string, value: string, other: string)
    requires CleanKey(key) && CleanValue(value) && CleanKey(other) && other != key
    ensures Get(Set(raw, key, value), other) == Get(raw, other)
  {
    var lines, line := Lines(raw), NewLine(key, value);
    SetLines(raw, key, value);
    NewLineSays(key, value);
    assert !Assigns(line, other) by { if Assigns(line, other) { AssignsOneKey(line, key, other); } }
    if FirstAt(lines, key) < |lines| {
      UpdatedSays(lines, key, line, other);
    } else {
      AddedSays(lines, line, other);
    }
  }

  /** Setting twice is setting last. */
  lemma SetTwice(raw: string, key: string, first: string, second: string)
    requires CleanKey(key) && CleanValue(first) && CleanValue(second)
    ensures Set(Set(raw, key, first), key, second) == Set(raw, key, second)
  {
    var lines := Lines(raw);
    SetLines(raw, key, first);
    NewLineSays(key, first);
    EditedFirst(lines, key, NewLine(key, first));
    var once := Edited(lines, key, NewLine(key, first));
    assert Edited(once, key, NewLine(key, second)) == Edited(lines, key, NewLine(key, second));
  }

  // ---- Values that end a line ----

  /** The first character of a value that some reader ends a line at. */
  function FirstBreak(value: string): (j: nat)
    ensures j <= |value|
  {
    if value == "" || value[0] == '\r' || Sep(value[0]) then 0 else 1 + FirstBreak(value[1..])
  }

  lemma {:induction false} FirstBreakIs(value: string)
    ensures var j := FirstBreak(value);
            (forall i :: 0 <= i < j ==> value[i] != '\r' && !Sep(value[i])) &&
            (j < |value| ==> value[j] == '\r' || Sep(value[j]))
  {
    if value != "" && value[0] != '\r' && !Sep(value[0]) { FirstBreakIs(value[1..]); }
  }

  lemma {:induction false} StripRightKeepsHead(s: string)
    requires s != "" && !IsSpace(s[0])
    ensures StripRight(s) != "" && StripRight(s) <= s
  {
    if IsSpace(s[|s| - 1]) { StripRightKeepsHead(s[..|s| - 1]); }
  }

  /** What is left of the open quotation keeps its quote. */
  lemma CutReads(kept: string, c: char, read: string)
    requires Sep(c) && '\'' !in kept && read == StripRight("'" + kept + [c])
    ensures read != "" && Unquote(read) == read && read[0] == '\''
  {
    var rest := "'" + kept + [c];
    StripRightKeepsHead(rest);
    assert rest[0] == '\'';
    if |read| >= 2 {
      assert read[|read| - 1] == rest[|read| - 1] == (kept + [c])[|read| - 2];
      assert |read| - 2 < |kept| ==> kept[|read| - 2] in kept;
    }
  }

  /** An assignment cut off inside its quotes does not read as any value it could have had. */
  lemma CutLineSays(key: string, kept: string, c: char, value: string)
    requires CleanKey(key) && Sep(c) && '\'' !in kept && '\'' !in value
    ensures Assigns(key + " = '" + kept + [c], key) && ValueIn(key + " = '" + kept + [c], key) != value
  {
    var rest := "'" + kept + [c];
    assert key + " = '" + kept + [c] == key + " = " + rest;
    HeadAssigns(key, rest);
    StripLeftStays(rest);
    CutReads(kept, c, StripRight(rest));
    assert value == "" || value[0] in value;
  }

  predicate Unbroken(s: string) { forall i :: 0 <= i < |s| ==> s[i] != '\r' && !Sep(s[i]) }

  lemma UnbrokenIsClean(value: string)
    requires ValueAccepted(value)
    ensures Unbroken(value) ==> CleanValue(value)
  {
  }

  lemma HeadUnbroken(key: string, kept: string)
    requires CleanKey(key) && Unbroken(kept)
    ensures Unbroken(key + " = '" + kept)
  {
    KeyChars(key);
    assert Unbroken(key);
  }

  lemma UnbrokenThenEnd(head: string, c: char)
    requires Unbroken(head) && Sep(c)
    ensures WholeLine(head + [c]) && Ended(head + [c]) && '\r' !in head
  {
  }

  /** A text that breaks off after an unbroken head has the head and the break as its first line. */
  lemma BreakSplits(head: string, tail: string)
    requires Unbroken(head) && tail != "" && (tail[0] == '\r' || Sep(tail[0]))
    ensures Lines(head + tail) ==
            [head + [if tail[0] == '\r' then '\n' else tail[0]]] + SplitLines(ReadText(tail)[1..])
  {
    var cut := head + [if tail[0] == '\r' then '\n' else tail[0]];
    var rest := ReadText(tail)[1..];
    UnbrokenThenEnd(head, if tail[0] == '\r' then '\n' else tail[0]);
    ReadConcat(head, tail);
    ReadPlain(head);
    Assoc(head, [cut[|head|]], rest);
    OneLine(cut);
    SplitConcat(cut, rest);
  }

  lemma {:induction false} QuoteIsRead(raw: string)
    requires '\'' in raw
    ensures '\'' in ReadText(raw)
  {
    if raw[0] != '\'' { QuoteIsRead(raw[Width(raw)..]); }
  }

  lemma NewLineCut(key: string, value: string, j: nat)
    requires j < |value|
    ensures NewLine(key, value) == (key + " = '" + value[..j]) + (value[j..] + "'\n")
    ensures (value[j..] + "'\n")[0] == value[j]
    ensures forall c :: c in value[..j] ==> c in value
  {
  }

  /** Read back, an assignment whose value ends a line starts with the cut line, and more follows. */
  lemma CutLineFirst(key: string, value: string)
    requires CleanKey(key) && ValueAccepted(value) && !CleanValue(value)
    ensures var lines := Lines(NewLine(key, value));
            |lines| > 1 && Assigns(lines[0], key) && ValueIn(lines[0], key) != value
  {
    var j := FirstBreak(value);
    FirstBreakIs(value);
    UnbrokenIsClean(value);
    HeadUnbroken(key, value[..j]);
    NewLineCut(key, value, j);
    BreakSplits(key + " = '" + value[..j], value[j..] + "'\n");
    CutLineSays(key, value[..j], if value[j] == '\r' then '\n' else value[j], value);
    QuoteIsRead(value[j..] + "'\n");
  }

  lemma {:induction false} ReadEnded(x: string)
    requires Ended(x)
    ensures Ended(ReadText(x))
  {
    if x != "" {
      var n := Width(x);
      ReadEnded(x[n..]);
      assert ReadText(x) != "";
      if x[n..] == "" { assert ReadText(x) == [if x[0] == '\r' then '\n' else x[0]]; }
    }
  }

  lemma LinesConcat(x: string, y: string)
    requires Ended(x)
    ensures Lines(x + y) == Lines(x) + Lines(y)
  {
    ReadConcat(x, y);
    ReadEnded(x);
    SplitConcat(ReadText(x), ReadText(y));
  }

  /** What stands before the new line. */
  function Before(lines: seq<string>, key: string): seq<string> {
    if FirstAt(lines, key) < |lines| then lines[..FirstAt(lines, key)] else Finished(lines)
  }

  lemma BeforeGood(raw: string, key: string)
    requires CleanKey(key)
    ensures var pre := Before(Lines(raw), key);
            Ended(Join(pre)) && Lines(Join(pre)) == pre && forall i :: 0 <= i < |pre| ==> !Assigns(pre[i], key)
  {
    var lines := Lines(raw);
    LinesGood(raw);
    FirstAtIs(lines, key);
    if FirstAt(lines, key) < |lines| {
      ProperPrefix(lines, FirstAt(lines, key));
    } else {
      ProperFinished(lines);
      FinishedPlain(lines);
      FinishedSays(lines, key);
      FirstAtIs(Finished(lines), key);
      JoinEnded(Finished(lines));
    }
    LinesOfJoin(Before(lines, key));
  }

  lemma {:induction false} JoinEnded(lines: seq<string>)
    requires Proper(lines) && (lines != [] ==> Ended(lines[|lines| - 1]))
    ensures Ended(Join(lines))
  {
    if lines != [] { JoinEnded(lines[1..]); }
  }

  lemma {:induction false} FirstAfter(pre: seq<string>, rest: seq<string>, key: string)
    requires forall i :: 0 <= i < |pre| ==> !Assigns(pre[i], key)
    requires rest != [] && Assigns(rest[0], key)
    ensures FirstAt(pre + rest, key) == |pre|
  {
    FirstAtUnique(pre + rest, key, |pre|);
  }

  /** What stands after it. */
  function Behind(lines: seq<string>, key: string): seq<string> {
    if FirstAt(lines, key) < |lines| then lines[FirstAt(lines, key) + 1..] else []
  }

  lemma SetIs(raw: string, key: string, value: string)
    ensures Set(raw, key, value) ==
            Join(Before(Lines(raw), key)) + (NewLine(key, value) + Join(Behind(Lines(raw), key)))
  {
    var lines, line := Lines(raw), NewLine(key, value);
    var rest := Behind(lines, key);
    assert Edited(lines, key, line) == Before(lines, key) + ([line] + rest);
    assert ([line] + rest)[1..] == rest;
    JoinConcat(Before(lines, key), [line] + rest);
  }

  lemma BehindGood(raw: string, key: string)
    ensures Lines(Join(Behind(Lines(raw), key))) == Behind(Lines(raw), key)
  {
    var lines := Lines(raw);
    LinesGood(raw);
    if FirstAt(lines, key) < |lines| { ProperSuffix(lines, FirstAt(lines, key) + 1); }
    LinesOfJoin(Behind(lines, key));
  }

  /** The lines after an edit, whatever the value. */
  lemma SetLinesAre(raw: string, key: string, value: string)
    requires CleanKey(key)
    ensures Lines(Set(raw, key, value)) ==
            Before(Lines(raw), key) + (Lines(NewLine(key, value)) + Behind(Lines(raw), key))
  {
    var pre, line, rest := Join(Before(Lines(raw), key)), NewLine(key, value), Join(Behind(Lines(raw), key));
    SetIs(raw, key, value);
    BeforeGood(raw, key);
    BehindGood(raw, key);
    LinesConcat(pre, line + rest);
    LinesConcat(line, rest);
  }

  /** An accepted value is read back exactly when nothing in it ends a line: only the newline
      is refused, and a file is read with many other line ends. */
  lemma SetReadsExactly(raw: string, key: string, value: string)
    requires CleanKey(key) && ValueAccepted(value)
    ensures Get(Set(raw, key, value), key) == Some(value) <==> CleanValue(value)
  {
    if CleanValue(value) {
      SetReads(raw, key, value);
    } else {
      SetLinesAre(raw, key, value);
      BeforeGood(raw, key);
      CutLineFirst(key, value);
      FirstAfter(Before(Lines(raw), key), Lines(NewLine(key, value)) + Behind(Lines(raw), key), key);
    }
  }

  lemma AroundFirst(pre: seq<string>, pieces: seq<string>, rest: seq<string>, key: string)
    requires forall i :: 0 <= i < |pre| ==> !Assigns(pre[i], key)
    requires |pieces| > 1 && Assigns(pieces[0], key)
    ensures Before(pre + (pieces + rest), key) == pre && Behind(pre + (pieces + rest), key) == pieces[1..] + rest
  {
    FirstAfter(pre, pieces + rest, key);
    assert (pre + (pieces + rest))[|pre| + 1..] == pieces[1..] + rest;
  }

  lemma SecondEdit(raw: string, key: string, first: string)
    requires CleanKey(key) && ValueAccepted(first) && !CleanValue(first)
    ensures var pieces := Lines(NewLine(key, first));
            |pieces| > 1 && Before(Lines(Set(raw, key, first)), key) == Before(Lines(raw), key) &&
            Behind(Lines(Set(raw, key, first)), key) == pieces[1..] + Behind(Lines(raw), key)
  {
    SetLinesAre(raw, key, first);
    BeforeGood(raw, key);
    CutLineFirst(key, first);
    AroundFirst(Before(Lines(raw), key), Lines(NewLine(key, first)), Behind(Lines(raw), key), key);
  }

  lemma LongerDiffers(pre: string, line: string, more: string, rest: string)
    requires more != ""
    ensures pre + (line + (more + rest)) != pre + (line + rest)
  {
    assert |pre + (line + (more + rest))| == |pre + (line + rest)| + |more|;
  }

  lemma PiecesLeft(text: string)
    requires |Lines(text)| > 1
    ensures Join(Lines(text)[1..]) != ""
  {
    LinesGood(text);
    assert WholeLine(Lines(text)[1..][0]);
  }

  /** Setting twice is setting last exactly when nothing in the first value ends a line: the second
      edit takes the first piece of a value that is cut for the whole assignment, and the other
      pieces stay in the file as lines of their own. */
  lemma SetTwiceExactly(raw: string, key: string, first: string, second: string)
    requires CleanKey(key) && ValueAccepted(first) && CleanValue(second)
    ensures Set(Set(raw, key, first), key, second) == Set(raw, key, second) <==> CleanValue(first)
  {
    if CleanValue(first) {
      SetTwice(raw, key, first, second);
    } else {
      var pieces := Lines(NewLine(key, first));
      SecondEdit(raw, key, first);
      SetIs(raw, key, second);
      SetIs(Set(raw, key, first), key, second);
      JoinConcat(pieces[1..], Behind(Lines(raw), key));
      PiecesLeft(NewLine(key, first));
      LongerDiffers(Join(Before(Lines(raw), key)), NewLine(key, second), Join(pieces[1..]),
                    Join(Behind(Lines(raw), key)));
    }
  }

  // ---- A reader that takes the last assignment ----

  function LastAt(lines: seq<string>, key: string): (i: nat)
    ensures i <= |lines| && (i < |lines| ==> Assigns(lines[i], key))
    ensures forall j :: 0 <= j < |lines| && Assigns(lines[j], key) ==> j <= i < |lines|
  {
    if lines == [] then 0
    else if Assigns(lines[|lines| - 1], key) then |lines| - 1
    else
      var i := LastAt(lines[..|lines| - 1], key);
      if i < |lines| - 1 then i else |lines|
  }

  function GetLast(raw: string, key: string): Option<string> { ValueAt(Lines(raw), LastAt(Lines(raw), key), key) }

  /** A reader that lets the last assignment win sees the new value exactly when the key is not
      assigned again further down, or already had that value there. */
  lemma LastReaderExactly(raw: string, key: string, value: string)
    requires CleanKey(key) && CleanValue(value)
    ensures GetLast(Set(raw, key, value), key) == Some(value) <==>
            LastAt(Lines(raw), key) == FirstAt(Lines(raw), key) || GetLast(raw, key) == Some(value)
  {
    var lines, line := Lines(raw), NewLine(key, value);
    SetLines(raw, key, value);
    NewLineSays(key, value);
    FirstAtIs(lines, key);
    var after := Lines(Set(raw, key, value));
    var i := FirstAt(lines, key);
    if i < |lines| {
      assert after == lines[i := line];
      assert Assigns(after[LastAt(lines, key)], key);
      assert LastAt(after, key) == LastAt(lines, key);
    } else {
      assert after[|after| - 1] == line;
    }
  }
}
