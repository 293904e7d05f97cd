/** Broker expiry strings made into DDMMMYY codes and put in order (blueprints/flow.py,
    _sorted_expiry_codes), with the four date formats it tries read out in full. */
module ExpiryCodes {
  import opened Wrappers
  import opened Text
  import opened Sorting

  datatype Date = Date(year: nat, month: nat, day: nat)

  const MONTHS := ["JAN", "FEB", "MAR", "APR", "MAY", "JUN", "JUL", "AUG", "SEP", "OCT", "NOV", "DEC"]

  predicate Leap(year: nat) { year % 4 == 0 && (year % 100 != 0 || year % 400 == 0) }

  function DaysIn(year: nat, month: nat): nat {
    if month == 2 then (if Leap(year) then 29 else 28) else if month in {4, 6, 9, 11} then 30 else 31
  }

  predicate Valid(d: Date) {
    1 <= d.year <= 9999 && 1 <= d.month <= 12 && 1 <= d.day <= DaysIn(d.year, d.month)
  }

  predicate DateLe(a: Date, b: Date) {
    a.year < b.year || (a.year == b.year && (a.month < b.month || (a.month == b.month && a.day <= b.day)))
  }

  /** The dates there are. */
  lemma Calendar(d: Date)
    ensures Valid(d) <==>
            1 <= d.year <= 9999 && 1 <= d.month <= 12 &&
            var february := if d.year % 400 == 0 || (d.year % 4 == 0 && d.year % 100 != 0) then 29 else 28;
            1 <= d.day <= [31, february, 31, 30, 31, 30, 31, 31, 30, 31, 30, 31][d.month - 1]
  {
  }

  // ---- strptime() with %d-%b-%y, %d-%b-%Y, %d%b%y and %d%b%Y on an upper-case text ----

  predicate IsDigit(c: char) { '0' <= c <= '9' }

  predicate IsCapital(c: char) { 'A' <= c <= 'Z' }

  function Digit(c: char): nat
    requires IsDigit(c)
  {
    c as nat - '0' as nat
  }

  /** How many characters %d takes at the start; 0 when it does not match. */
  function DayWidth(text: string): (n: nat)
    ensures n <= 2 && n <= |text| && forall i :: 0 <= i < n ==> IsDigit(text[i])
  {
    if |text| >= 2 && ((text[0] == '3' && '0' <= text[1] <= '1') || ('1' <= text[0] <= '2' && IsDigit(text[1])) ||
                       (text[0] == '0' && '1' <= text[1] <= '9')) then 2
    else if text != "" && '1' <= text[0] <= '9' then 1 else 0
  }

  function Number(digits: string): nat
    requires forall i :: 0 <= i < |digits| ==> IsDigit(digits[i])
  {
    if digits == "" then 0 else 10 * Number(digits[..|digits| - 1]) + Digit(digits[|digits| - 1])
  }

  function MonthFrom(name: string, i: nat): nat
    requires i <= 12
    decreases 12 - i
  {
    if i == 12 then 0 else if MONTHS[i] == name then i + 1 else MonthFrom(name, i + 1)
  }

  /** A two-digit year stands for 1969 to 2068. */
  function Century(yy: nat): nat { if yy <= 68 then 2000 + yy else 1900 + yy }

  function ParseAs(text: string, hyphens: bool, fourDigits: bool): Option<Date> {
    var w, gap, years := DayWidth(text), if hyphens then 1 else 0, if fourDigits then 4 else 2;
    if w == 0 || |text| != w + gap + 3 + gap + years then None
    else if hyphens && (text[w] != '-' || text[w + 4] != '-') then None
    else if exists i :: |text| - years <= i < |text| && !IsDigit(text[i]) then None
    else
      var shown := Number(text[|text| - years..]);
      var date := Date(if fourDigits then shown else Century(shown), MonthFrom(text[w + gap..w + gap + 3], 0),
                       Number(text[..w]));
      if Valid(date) then Some(date) else None
  }

  /** The first format that fits. */
  function Parse(text: string): Option<Date> {
    if ParseAs(text, true, false).Some? then ParseAs(text, true, false)
    else if ParseAs(text, true, true).Some? then ParseAs(text, true, true)
    else if ParseAs(text, false, false).Some? then ParseAs(text, false, false)
    else ParseAs(text, false, true)
  }

  function DigitChar(n: nat): char
    requires n < 10
  {
    ('0' as nat + n) as char
  }

  function TwoDigits(n: nat): string
    requires n < 100
  {
    [DigitChar(n / 10), DigitChar(n % 10)]
  }

  /** strftime("%d%b%y").upper(). */
  function Format(d: Date): string
    requires Valid(d)
  {
    TwoDigits(d.day) + MONTHS[d.month - 1] + TwoDigits(d.year % 100)
  }

  // ---- _sorted_expiry_codes() ----

  /** The code of one entry; none for what is not text, or blank. */
  function Code(raw: Option<string>): Option<string> {
    if raw.None? || Strip(raw.value) == "" then None
    else
      var text := Upper(Strip(raw.value));
      var date := Parse(text);
      ParseIsValid(text);
      Some(if date.Some? then Format(date.value) else text)
  }

  function Codes(raws: seq<Option<string>>, make: Option<string> -> Option<string>): seq<string> {
    if raws == [] then []
    else
      var code := make(raws[|raws| - 1]);
      Codes(raws[..|raws| - 1], make) + (if code.Some? then [code.value] else [])
  }

  /** dict.fromkeys(): each once, where first seen. */
  function Dedupe(codes: seq<string>): seq<string> {
    if codes == [] then []
    else
      var before, last := Dedupe(codes[..|codes| - 1]), codes[|codes| - 1];
      if last in before then before else before + [last]
  }

  /** The date a code sorts by. */
  function DateOf(code: string): Option<Date> { ParseAs(code, false, false) }

  predicate CodeLe(a: string, b: string) {
    DateOf(b).None? || (DateOf(a).Some? && DateLe(DateOf(a).value, DateOf(b).value))
  }

  function Ordered(raws: seq<Option<string>>): seq<string> { Sort(Dedupe(Codes(raws, Code)), CodeLe) }

  lemma ParseIsValid(text: string)
    ensures Parse(text).Some? ==> Valid(Parse(text).value)
  {
  }

  // ---- Codes parse back to themselves ----

  lemma TwoDigitsRead(n: nat)
    requires n < 100
    ensures forall i :: 0 <= i < 2 ==> IsDigit(TwoDigits(n)[i])
    ensures Number(TwoDigits(n)) == n
  {
    var s := TwoDigits(n);
    assert s[..1] == [s[0]] && s[..1][..0] == "";
    assert Number(s[..1]) == Digit(s[0]);
  }

  lemma MonthRead(month: nat)
    requires 1 <= month <= 12
    ensures MonthFrom(MONTHS[month - 1], 0) == month && |MONTHS[month - 1]| == 3
  {
    MonthReadFrom(month, 0);
  }

  lemma {:induction false} MonthReadFrom(month: nat, i: nat)
    requires 1 <= month <= 12 && i < month
    ensures MonthFrom(MONTHS[month - 1], i) == month
    decreases 12 - i
  {
    if i < month - 1 {
      assert MONTHS[i] != MONTHS[month - 1];
      MonthReadFrom(month, i + 1);
    }
  }

  lemma LeapCentury(year: nat)
    requires 1 <= year <= 9999 && Leap(year)
    ensures Leap(Century(year % 100))
  {
  }

  lemma CenturyIs(year: nat)
    requires 1 <= year <= 9999
    ensures Century(year % 100) == year <==> 1969 <= year <= 2068
  {
  }

  // ---- The four forms ----

  function DayText(day: nat, padded: bool): string
    requires day < 100
  {
    if padded || day >= 10 then TwoDigits(day) else [DigitChar(day)]
  }

  function YearText(year: nat, fourDigits: bool): string
    requires year < 10000
  {
    if fourDigits then TwoDigits(year / 100) + TwoDigits(year % 100) else TwoDigits(year % 100)
  }

  /** A date as a broker writes it. */
  function Written(d: Date, hyphens: bool, fourDigits: bool, padded: bool): string
    requires Valid(d)
  {
    var gap := if hyphens then "-" else "";
    DayText(d.day, padded) + (gap + MONTHS[d.month - 1] + gap + YearText(d.year, fourDigits))
  }

  lemma DayReads(day: nat, padded: bool, rest: string)
    requires 1 <= day <= 31 && rest != "" && !IsDigit(rest[0])
    ensures var text, w := DayText(day, padded) + rest, |DayText(day, padded)|;
            DayWidth(text) == w && text[..w] == DayText(day, padded) && Number(text[..w]) == day
  {
    var head := DayText(day, padded);
    assert (head + rest)[..|head|] == head;
    if |head| == 2 {
      TwoDigitsRead(day);
      assert head == TwoDigits(day);
    } else {
      assert head[..0] == "" && Number(head) == Digit(head[0]);
    }
  }

  lemma {:induction false} NumberConcat(a: string, b: string)
    requires |b| == 2 && forall i :: 0 <= i < |a + b| ==> IsDigit((a + b)[i])
    ensures (forall i :: 0 <= i < |a| ==> IsDigit(a[i])) && (forall i :: 0 <= i < |b| ==> IsDigit(b[i]))
    ensures Number(a + b) == 100 * Number(a) + Number(b)
  {
    assert forall i :: 0 <= i < |a| ==> a[i] == (a + b)[i];
    assert forall i :: 0 <= i < |b| ==> b[i] == (a + b)[|a| + i];
    var ab := a + b;
    assert ab[..|ab| - 1] == a + [b[0]] && (a + [b[0]])[..|a|] == a;
    assert b[..1] == [b[0]] && b[..1][..0] == "";
    assert Number(b[..1]) == Digit(b[0]);
  }

  lemma YearReads(year: nat, fourDigits: bool)
    requires 1 <= year <= 9999
    ensures var text := YearText(year, fourDigits);
            |text| == (if fourDigits then 4 else 2) && (forall i :: 0 <= i < |text| ==> IsDigit(text[i])) &&
            Number(text) == if fourDigits then year else year % 100
  {
    TwoDigitsRead(year % 100);
    if fourDigits {
      TwoDigitsRead(year / 100);
      NumberConcat(TwoDigits(year / 100), TwoDigits(year % 100));
    }
  }

  /** The date one of the forms stands for: two year digits stand for 1969 to 2068. */
  function Meant(d: Date, fourDigits: bool): Date { if fourDigits then d else d.(year := Century(d.year % 100)) }

  /** What a format reads of a text. */
  predicate Parts(text: string, hyphens: bool, day: nat, month: string, years: string) {
    var w, gap := DayWidth(text), if hyphens then 1 else 0;
    && w > 0 && |text| == w + gap + 3 + gap + |years| && Number(text[..w]) == day
    && (if hyphens then text[w] == '-' && text[w + 4] == '-' else IsCapital(text[w]))
    && text[w + gap..w + gap + 3] == month && text[w + gap + 3 + gap..] == years
  }

  lemma PartsOf(head: string, hyphens: bool, day: nat, month: string, years: string)
    requires |month| == 3 && IsCapital(month[0]) && head != ""
    requires var gap := if hyphens then "-" else "";
             var text := head + (gap + month + gap + years);
             DayWidth(text) == |head| && text[..|head|] == head && Number(text[..|head|]) == day
    ensures var gap := if hyphens then "-" else "";
            Parts(head + (gap + month + gap + years), hyphens, day, month, years)
  {
    Assembled(head, if hyphens then "-" else "", month, years);
  }

  lemma WrittenParts(d: Date, hyphens: bool, fourDigits: bool, padded: bool)
    requires Valid(d)
    ensures Parts(Written(d, hyphens, fourDigits, padded), hyphens, d.day, MONTHS[d.month - 1],
                  YearText(d.year, fourDigits))
  {
    var gap, month, years := if hyphens then "-" else "", MONTHS[d.month - 1], YearText(d.year, fourDigits);
    MonthIsWord(d.month);
    DayReads(d.day, padded, gap + month + gap + years);
    PartsOf(DayText(d.day, padded), hyphens, d.day, month, years);
  }

  lemma MonthIsWord(month: nat)
    requires 1 <= month <= 12
    ensures |MONTHS[month - 1]| == 3 && IsCapital(MONTHS[month - 1][0])
  {
  }

  /** Where the parts of a text stand. */
  lemma Assembled(head: string, gap: string, month: string, years: string)
    requires |gap| <= 1 && |month| == 3
    ensures var text, w, g := head + (gap + month + gap + years), |head|, |gap|;
            |text| == w + g + 3 + g + |years| && text[w + g..w + g + 3] == month &&
            text[w + g + 3 + g..] == years && text[w] == (gap + month)[0] &&
            (g == 1 ==> text[w + 4] == gap[0])
  {
  }

  lemma MeantIsValid(d: Date, fourDigits: bool)
    requires Valid(d)
    ensures Valid(Meant(d, fourDigits))
  {
    if Leap(d.year) { LeapCentury(d.year); }
  }

  /** A text with the right parts is read as the date they give. */
  lemma PartsParse(text: string, hyphens: bool, day: nat, month: nat, years: string)
    requires 1 <= month <= 12 && |years| in {2, 4} && (forall i :: 0 <= i < |years| ==> IsDigit(years[i]))
    requires Parts(text, hyphens, day, MONTHS[month - 1], years)
    ensures var date := Date(if |years| == 4 then Number(years) else Century(Number(years)), month, day);
            Valid(date) ==> ParseAs(text, hyphens, |years| == 4) == Some(date)
  {
    MonthRead(month);
    assert text[|text| - |years|..] == years;
    assert forall i :: |text| - |years| <= i < |text| ==> text[i] == years[i - (|text| - |years|)];
  }

  /** Each form is read back as the date it stands for. */
  lemma FormReads(d: Date, hyphens: bool, fourDigits: bool, padded: bool)
    requires Valid(d)
    ensures ParseAs(Written(d, hyphens, fourDigits, padded), hyphens, fourDigits) == Some(Meant(d, fourDigits))
  {
    WrittenParts(d, hyphens, fourDigits, padded);
    YearReads(d.year, fourDigits);
    MeantIsValid(d, fourDigits);
    PartsParse(Written(d, hyphens, fourDigits, padded), hyphens, d.day, d.month, YearText(d.year, fourDigits));
  }

  /** No other format takes it, so the order in which the formats are tried does not matter. */
  lemma FormsDiffer(d: Date, hyphens: bool, fourDigits: bool, padded: bool, h: bool, f: bool)
    requires Valid(d) && (h != hyphens || f != fourDigits)
    ensures ParseAs(Written(d, hyphens, fourDigits, padded), h, f) == None
  {
    WrittenParts(d, hyphens, fourDigits, padded);
    YearReads(d.year, fourDigits);
  }

  /** Every date in every form, with or without a leading zero, becomes the code of the date the
      form stands for. */
  lemma EveryFormIsCoded(d: Date, hyphens: bool, fourDigits: bool, padded: bool)
    requires Valid(d)
    ensures Parse(Written(d, hyphens, fourDigits, padded)) == Some(Meant(d, fourDigits))
  {
    FormReads(d, hyphens, fourDigits, padded);
    forall h, f | h != hyphens || f != fourDigits
      ensures ParseAs(Written(d, hyphens, fourDigits, padded), h, f) == None
    {
      FormsDiffer(d, hyphens, fourDigits, padded, h, f);
    }
  }

  lemma TwoDigitsBack(s: string)
    requires |s| == 2 && IsDigit(s[0]) && IsDigit(s[1])
    ensures Number(s) < 100 && TwoDigits(Number(s)) == s
  {
    assert s[..1] == [s[0]] && s[..1][..0] == "";
    assert Number(s[..1]) == Digit(s[0]) && Number(s) == 10 * Digit(s[0]) + Digit(s[1]);
  }

  lemma DayBack(text: string)
    requires DayWidth(text) > 0
    ensures var head := text[..DayWidth(text)];
            Number(head) < 100 && DayText(Number(head), DayWidth(text) == 2) == head
  {
    var head := text[..DayWidth(text)];
    if |head| == 2 {
      TwoDigitsBack(head);
    } else {
      assert head[..0] == "" && Number(head) == Digit(head[0]) && head == [text[0]];
    }
  }

  lemma {:induction false} MonthBack(name: string, i: nat)
    requires i <= 12 && MonthFrom(name, i) != 0
    ensures 1 <= MonthFrom(name, i) <= 12 && MONTHS[MonthFrom(name, i) - 1] == name
    decreases 12 - i
  {
    if MONTHS[i] != name { MonthBack(name, i + 1); }
  }

  lemma Hundreds(x: nat, y: nat)
    requires y < 100
    ensures (100 * x + y) / 100 == x && (100 * x + y) % 100 == y
  {
  }

  lemma FourDigitsBack(a: string, b: string)
    requires |a| == 2 && |b| == 2 && forall i :: 0 <= i < 4 ==> IsDigit((a + b)[i])
    ensures Number(a + b) < 10000 && YearText(Number(a + b), true) == a + b
  {
    NumberConcat(a, b);
    TwoDigitsBack(a);
    TwoDigitsBack(b);
    Hundreds(Number(a), Number(b));
  }

  lemma YearBack(s: string, fourDigits: bool)
    requires |s| == (if fourDigits then 4 else 2) && forall i :: 0 <= i < |s| ==> IsDigit(s[i])
    ensures var year := if fourDigits then Number(s) else Century(Number(s));
            year < 10000 && YearText(year, fourDigits) == s
    ensures !fourDigits ==> Century(Century(Number(s)) % 100) == Century(Number(s))
  {
    if fourDigits {
      var a, b := s[..2], s[2..];
      assert s == a + b;
      FourDigitsBack(a, b);
    } else {
      TwoDigitsBack(s);
      CenturyBack(Number(s));
    }
  }

  lemma CenturyBack(yy: nat)
    requires yy < 100
    ensures Century(yy) % 100 == yy && Century(yy) < 10000
  {
  }

  /** The five parts of a text, put together again. */
  lemma Reassembled(text: string, w: nat, gap: string, years: string)
    requires |gap| <= 1 && |text| == w + 2 * |gap| + 3 + |years| && text[|text| - |years|..] == years
    requires gap != "" ==> text[w] == gap[0] && text[w + 4] == gap[0]
    ensures text == text[..w] + (gap + text[w + |gap|..w + |gap| + 3] + gap + years)
  {
  }

  lemma PartsBack(text: string, hyphens: bool, fourDigits: bool, d: Date)
    requires Valid(d) && Parts(text, hyphens, d.day, MONTHS[d.month - 1], YearText(d.year, fourDigits))
    ensures text == Written(d, hyphens, fourDigits, DayWidth(text) == 2)
  {
    DayBack(text);
    Reassembled(text, DayWidth(text), if hyphens then "-" else "", YearText(d.year, fourDigits));
  }

  /** What a format reads was written in that form. */
  lemma ReadWasWritten(text: string, hyphens: bool, fourDigits: bool)
    requires ParseAs(text, hyphens, fourDigits).Some?
    ensures var d := ParseAs(text, hyphens, fourDigits).value;
            Valid(d) && text == Written(d, hyphens, fourDigits, DayWidth(text) == 2) && Meant(d, fourDigits) == d
  {
    var d, at := ParseAs(text, hyphens, fourDigits).value, DayWidth(text) + (if hyphens then 1 else 0);
    MonthBack(text[at..at + 3], 0);
    MonthIsWord(d.month);
    YearBack(text[|text| - (if fourDigits then 4 else 2)..], fourDigits);
    PartsBack(text, hyphens, fourDigits, d);
  }

  /** A text is read as a date exactly when it is one of the date's writings: with or without hyphens
      and a leading zero, its year in four digits or, for a date from 1969 to 2068, in two. */
  lemma ReadExactly(text: string, date: Date)
    ensures Parse(text) == Some(date) <==>
            exists d, hyphens, fourDigits, padded ::
              Valid(d) && text == Written(d, hyphens, fourDigits, padded) && date == Meant(d, fourDigits)
  {
    forall d, hyphens, fourDigits, padded | Valid(d) && text == Written(d, hyphens, fourDigits, padded)
      ensures Parse(text) == Some(Meant(d, fourDigits))
    {
      EveryFormIsCoded(d, hyphens, fourDigits, padded);
    }
    forall h, f | ParseAs(text, h, f) == Some(date)
      ensures Valid(date) && text == Written(date, h, f, DayWidth(text) == 2) && Meant(date, f) == date
    {
      ReadWasWritten(text, h, f);
    }
  }

  /** The date a written code is read as: the same day in the century of its two-digit year. */
  lemma FormatReads(d: Date)
    requires Valid(d)
    ensures DateOf(Format(d)) == Some(Date(Century(d.year % 100), d.month, d.day))
  {
    FormReads(d, false, false, true);
    assert Format(d) == Written(d, false, false, true);
  }

  /** Two digits, three capitals, two digits. */
  predicate IsCode(text: string) {
    && |text| == 7 && IsDigit(text[0]) && IsDigit(text[1]) && IsCapital(text[2]) && IsCapital(text[3])
    && IsCapital(text[4]) && IsDigit(text[5]) && IsDigit(text[6])
  }

  lemma FormatIsCode(d: Date)
    requires Valid(d)
    ensures IsCode(Format(d))
  {
  }

  lemma CodeIsBare(text: string)
    requires IsCode(text)
    ensures Strip(text) == text && Upper(text) == text
  {
  }

  lemma CenturyWritten(d: Date)
    requires Valid(d) && Valid(Date(Century(d.year % 100), d.month, d.day))
    ensures Format(Date(Century(d.year % 100), d.month, d.day)) == Format(d)
  {
    assert Century(d.year % 100) % 100 == d.year % 100;
  }

  lemma ParseOfCode(text: string)
    requires |text| == 7 && DateOf(text).Some?
    ensures Parse(text) == DateOf(text) && Valid(DateOf(text).value)
  {
  }

  /** A written code parses, by the format without hyphens and two year digits, to a date that is
      written the same. */
  lemma FormatStays(d: Date)
    requires Valid(d)
    ensures Parse(Format(d)).Some? && Code(Some(Format(d))) == Some(Format(d))
  {
    FormatReads(d);
    FormatIsCode(d);
    ParseOfCode(Format(d));
    CenturyWritten(d);
    CodeIsBare(Format(d));
  }

  /** Making a code of a code changes nothing, and it has a date exactly when the text did. */
  lemma CodeStays(raw: Option<string>)
    requires Code(raw).Some?
    ensures Code(Some(Code(raw).value)) == Code(raw)
    ensures var date := Parse(Upper(Strip(raw.value)));
            (DateOf(Code(raw).value).Some? <==> date.Some?) &&
            (date.Some? ==> Valid(date.value) && Code(raw).value == Format(date.value)) &&
            (date.None? ==> Code(raw).value == Upper(Strip(raw.value)))
  {
    var text := Upper(Strip(raw.value));
    ParseIsValid(text);
    StripIdempotent(raw.value);
    UpperKeepsBare(Strip(raw.value));
    if Parse(text).Some? {
      FormatStays(Parse(text).value);
      FormatReads(Parse(text).value);
    }
  }

  // ---- What the list is ----

  predicate AllCodes(codes: seq<string>, make: Option<string> -> Option<string>) {
    forall code :: code in codes ==> make(Some(code)) == Some(code)
  }

  /** Making a code of a code changes nothing. */
  ghost predicate Stable(make: Option<string> -> Option<string>) {
    forall raw :: make(raw).Some? ==> make(Some(make(raw).value)) == make(raw)
  }

  lemma CodeIsStable()
    ensures Stable(Code)
  {
    forall raw | Code(raw).Some? ensures Code(Some(Code(raw).value)) == Code(raw) {
      CodeStays(raw);
    }
  }

  lemma {:induction false} CodesAre(raws: seq<Option<string>>, make: Option<string> -> Option<string>)
    requires Stable(make)
    ensures AllCodes(Codes(raws, make), make)
    ensures forall code :: code in Codes(raws, make) <==> exists i :: 0 <= i < |raws| && make(raws[i]) == Some(code)
  {
    if raws != [] { CodesAre(raws[..|raws| - 1], make); }
  }

  /** Of two codes the one listed first was seen before the other ever was. */
  lemma {:induction false} DedupeAsFirstSeen(codes: seq<string>, i: nat, j: nat) returns (k: nat)
    requires i < j < |Dedupe(codes)|
    ensures k < |codes| && codes[k] == Dedupe(codes)[i] && Dedupe(codes)[j] !in codes[..k + 1]
  {
    var init := codes[..|codes| - 1];
    DedupeIs(init);
    if j < |Dedupe(init)| {
      k := DedupeAsFirstSeen(init, i, j);
      assert codes[..k + 1] == init[..k + 1];
    } else {
      assert Dedupe(init)[i] in init;
      k :| 0 <= k < |init| && init[k] == Dedupe(init)[i];
      assert forall c :: c in codes[..k + 1] ==> c in init;
    }
  }

  predicate Distinct(codes: seq<string>) {
    codes == [] || (codes[|codes| - 1] !in codes[..|codes| - 1] && Distinct(codes[..|codes| - 1]))
  }

  lemma {:induction false} DedupeIs(codes: seq<string>)
    ensures Distinct(Dedupe(codes)) && forall code :: code in Dedupe(codes) <==> code in codes
  {
    if codes != [] {
      var before, last := Dedupe(codes[..|codes| - 1]), codes[|codes| - 1];
      DedupeIs(codes[..|codes| - 1]);
      assert codes == codes[..|codes| - 1] + [last];
      if last !in before { assert (before + [last])[..|before|] == before; }
    }
  }

  lemma {:induction false} DistinctOnce(codes: seq<string>, code: string)
    requires Distinct(codes)
    ensures multiset(codes)[code] <= 1
  {
    if codes != [] {
      assert codes == codes[..|codes| - 1] + [codes[|codes| - 1]];
      DistinctOnce(codes[..|codes| - 1], code);
    }
  }

  lemma {:induction false} OnceDistinct(codes: seq<string>)
    requires forall code :: multiset(codes)[code] <= 1
    ensures Distinct(codes) && Dedupe(codes) == codes
  {
    if codes != [] {
      var before, last := codes[..|codes| - 1], codes[|codes| - 1];
      assert codes == before + [last];
      forall code ensures multiset(before)[code] <= 1 {
        assert multiset(codes)[code] <= 1;
      }
      OnceDistinct(before);
      assert multiset(codes)[last] == multiset(before)[last] + 1;
    }
  }

  lemma CodeLeTotal()
    ensures TotalPreorder(CodeLe)
  {
  }

  /** The list is a rearrangement, without duplicates, of the codes of the non-blank entries. */
  lemma Rearranges(raws: seq<Option<string>>)
    ensures multiset(Ordered(raws)) == multiset(Dedupe(Codes(raws, Code))) && Distinct(Ordered(raws))
    ensures forall code :: code in Ordered(raws) <==> exists i :: 0 <= i < |raws| && Code(raws[i]) == Some(code)
  {
    var codes := Codes(raws, Code);
    CodeIsStable();
    CodesAre(raws, Code);
    DedupeIs(codes);
    CodeLeTotal();
    SortSorts(Dedupe(codes), CodeLe);
    forall code ensures multiset(Ordered(raws))[code] <= 1 {
      DistinctOnce(Dedupe(codes), code);
    }
    OnceDistinct(Ordered(raws));
    forall code ensures code in Ordered(raws) <==> code in Dedupe(codes) {
      assert code in Ordered(raws) <==> code in multiset(Ordered(raws));
    }
  }

  /** Dates in the order of their days, counted in months of 31. */
  lemma DateLeIs(a: Date, b: Date)
    requires Valid(a) && Valid(b)
    ensures DateLe(a, b) <==> 372 * a.year + 31 * a.month + a.day <= 372 * b.year + 31 * b.month + b.day
  {
  }

  lemma DateOfIsValid(code: string)
    ensures DateOf(code).Some? ==> Valid(DateOf(code).value)
  {
  }

  /** Codes that are dates come first, in order of their dates; the others after them, in the
      order in which they were first seen. */
  lemma ChronologicalThenAsSeen(raws: seq<Option<string>>, i: nat, j: nat)
    requires i < j < |Ordered(raws)|
    ensures var a, b := DateOf(Ordered(raws)[i]), DateOf(Ordered(raws)[j]);
            b.Some? ==> a.Some? && 372 * a.value.year + 31 * a.value.month + a.value.day <=
                                   372 * b.value.year + 31 * b.value.month + b.value.day
    ensures Filter(Ordered(raws), (code: string) => DateOf(code).None?)
         == Filter(Dedupe(Codes(raws, Code)), (code: string) => DateOf(code).None?)
  {
    CodeLeTotal();
    SortSorts(Dedupe(Codes(raws, Code)), CodeLe);
    SortedAt(Ordered(raws), CodeLe, i, j);
    DateOfIsValid(Ordered(raws)[i]);
    DateOfIsValid(Ordered(raws)[j]);
    if DateOf(Ordered(raws)[j]).Some? { DateLeIs(DateOf(Ordered(raws)[i]).value, DateOf(Ordered(raws)[j]).value); }
    SortStable(Dedupe(Codes(raws, Code)), CodeLe, (code: string) => DateOf(code).None?);
  }

  function Texts(codes: seq<string>): seq<Option<string>> {
    if codes == [] then [] else Texts(codes[..|codes| - 1]) + [Some(codes[|codes| - 1])]
  }

  lemma CodesSnoc(raws: seq<Option<string>>, code: string, make: Option<string> -> Option<string>)
    requires make(Some(code)) == Some(code)
    ensures Codes(raws + [Some(code)], make) == Codes(raws, make) + [code]
  {
  }

  lemma {:induction false} CodesOfTexts(codes: seq<string>, make: Option<string> -> Option<string>)
    requires AllCodes(codes, make)
    ensures Codes(Texts(codes), make) == codes
  {
    if codes != [] {
      var before, last := codes[..|codes| - 1], codes[|codes| - 1];
      CodesOfTexts(before, make);
      CodesSnoc(Texts(before), last, make);
      assert codes == before + [last];
    }
  }

  /** Ordering its own output changes nothing. */
  lemma OrderedStays(raws: seq<Option<string>>)
    ensures Ordered(Texts(Ordered(raws))) == Ordered(raws)
  {
    var codes := Ordered(raws);
    CodeIsStable();
    CodesAre(raws, Code);
    DedupeIs(Codes(raws, Code));
    CodeLeTotal();
    SortSorts(Dedupe(Codes(raws, Code)), CodeLe);
    forall code | code in codes ensures Code(Some(code)) == Some(code) {
      assert code in multiset(codes);
    }
    CodesOfTexts(codes, Code);
    forall code ensures multiset(codes)[code] <= 1 { DistinctOnce(Dedupe(Codes(raws, Code)), code); }
    OnceDistinct(codes);
    SortFixed(codes, CodeLe);
  }

  /** A code sorts by the date it was made from exactly when that date lies from 1969 to 2068: a
      code keeps two digits of the year. */
  lemma CenturyExactly(d: Date)
    requires Valid(d)
    ensures DateOf(Format(d)) == Some(d) <==> 1969 <= d.year <= 2068
  {
    FormatReads(d);
    CenturyIs(d.year);
  }

  /** _sorted_expiry_codes(). */
  method SortedExpiryCodes(raws: seq<Option<string>>) returns (codes: seq<string>)
    ensures codes == Ordered(raws)
  {
    var seen: seq<string> := [];
    var n := 0;
    while n < |raws|
      invariant n <= |raws| && seen == Codes(raws[..n], Code)
    {
      assert raws[..n + 1][..n] == raws[..n];
      var code := Code(raws[n]);
      if code.Some? {
        seen := seen + [code.value];
      }
      n := n + 1;
    }
    assert raws[..n] == raws;
    codes := Sort(Dedupe(seen), CodeLe);
  }
}
