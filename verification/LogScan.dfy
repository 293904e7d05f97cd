/** The scan of a log window for the newest matching entries (blueprints/admin.py,
    _parse_jsonl_lines and the loops of api_errors_list and api_mcp_audit). How a line decodes,
    which entries a request keeps and how one is shown are parameters. */
module LogScan {
  import opened Wrappers
  import opened Text
  import opened Sorting
  import opened LogWindow

  const MAX_LIMIT: nat := 200
  const MCP_AUDIT_MAX_LIMIT: nat := 500

  /** The limit a request gets: one that was no number is given as None. */
  function Limit(asked: Option<int>, most: nat): (limit: nat)
    requires most >= 100
    ensures 1 <= limit <= most
    ensures asked.Some? && 1 <= asked.value <= most ==> limit == asked.value
    ensures asked.Some? && asked.value > most ==> limit == most
    ensures asked.Some? && asked.value < 1 ==> limit == 1
    ensures asked.None? ==> limit == 100
  {
    var n := if asked.Some? then asked.value else 100;
    if n < 1 then 1 else if n > most then most else n
  }

  /** A line that is blank, or does not decode to an object, is skipped. */
  function Parse<E>(line: string, decode: string -> Option<E>): Option<E> {
    if Strip(line) == "" then None else decode(Strip(line))
  }

  /** _parse_jsonl_lines(). */
  function Entries<E>(lines: seq<string>, decode: string -> Option<E>): seq<E> {
    if lines == [] then []
    else
      var entry := Parse(lines[0], decode);
      (if entry.Some? then [entry.value] else []) + Entries(lines[1..], decode)
  }

  function LastN<T>(s: seq<T>, n: nat): seq<T> { if |s| <= n then s else s[|s| - n..] }

  function Shown<E, R>(entries: seq<E>, show: E -> R): seq<R> {
    if entries == [] then [] else [show(entries[0])] + Shown(entries[1..], show)
  }

  function Reversed<T>(s: seq<T>): seq<T> { if s == [] then [] else [s[|s| - 1]] + Reversed(s[..|s| - 1]) }

  lemma {:induction false} EntriesConcat<E>(a: seq<string>, b: seq<string>, decode: string -> Option<E>)
    ensures Entries(a + b, decode) == Entries(a, decode) + Entries(b, decode)
  {
    if a == [] {
      assert a + b == b;
    } else {
      assert (a + b)[1..] == a[1..] + b;
      EntriesConcat(a[1..], b, decode);
      var entry := Parse(a[0], decode);
      Assoc(if entry.Some? then [entry.value] else [], Entries(a[1..], decode), Entries(b, decode));
    }
  }

  /** A line with an object on it, spaces around it or not, is that entry; any other is none. */
  lemma LineIsEntry<E>(line: string, decode: string -> Option<E>)
    ensures Entries([line], decode) ==
            if Strip(line) != "" && decode(Strip(line)).Some? then [decode(Strip(line)).value] else []
  {
  }

  lemma {:induction false} FilterConcat<T>(a: seq<T>, b: seq<T>, keep: T -> bool)
    ensures Filter(a + b, keep) == Filter(a, keep) + Filter(b, keep)
  {
    if a == [] {
      assert a + b == b;
    } else {
      assert (a + b)[1..] == a[1..] + b;
      FilterConcat(a[1..], b, keep);
      Assoc(if keep(a[0]) then [a[0]] else [], Filter(a[1..], keep), Filter(b, keep));
    }
  }

  lemma ReversedSnoc<T>(s: seq<T>, x: T)
    ensures Reversed(s + [x]) == [x] + Reversed(s)
  {
  }

  /** Everything a window holds, and what of it a request keeps. */
  function Found<E>(lines: seq<string>, decode: string -> Option<E>, keep: E -> bool): seq<E> {
    Filter(Entries(lines, decode), keep)
  }

  lemma FoundConcat<E>(a: seq<string>, b: seq<string>, decode: string -> Option<E>, keep: E -> bool)
    ensures Found(a + b, decode, keep) == Found(a, decode, keep) + Found(b, decode, keep)
  {
    EntriesConcat(a, b, decode);
    FilterConcat(Entries(a, decode), Entries(b, decode), keep);
  }

  lemma EntriesStep<E>(lines: seq<string>, n: nat, decode: string -> Option<E>)
    requires n < |lines|
    ensures var entry, after := Parse(lines[n], decode), Entries(lines[n + 1..], decode);
            Entries(lines[n..], decode) == (if entry.Some? then [entry.value] + after else after)
  {
    assert lines[n..][1..] == lines[n + 1..];
  }

  lemma FoundStep<E>(lines: seq<string>, n: nat, decode: string -> Option<E>, keep: E -> bool)
    requires n < |lines|
    ensures var entry, after := Parse(lines[n], decode), Entries(lines[n + 1..], decode);
            Entries(lines[n..], decode) == (if entry.Some? then [entry.value] + after else after)
    ensures var entry, after := Parse(lines[n], decode), Found(lines[n + 1..], decode, keep);
            Found(lines[n..], decode, keep) ==
            (if entry.Some? && keep(entry.value) then [entry.value] + after else after)
  {
  }

  lemma ShownCons<E, R>(x: E, rest: seq<E>, show: E -> R)
    ensures Shown([x] + rest, show) == [show(x)] + Shown(rest, show)
  {
  }

  lemma {:induction false} ShownLength<E, R>(entries: seq<E>, show: E -> R)
    ensures |Shown(entries, show)| == |entries|
  {
    if entries != [] { ShownLength(entries[1..], show); }
  }

  lemma {:induction false} ReversedLength<T>(s: seq<T>)
    ensures |Reversed(s)| == |s|
  {
    if s != [] { ReversedLength(s[..|s| - 1]); }
  }

  /** Where an early exit after enough matches leaves the scan. */
  lemma EnoughIsLast<E>(lines: seq<string>, n: nat, decode: string -> Option<E>, keep: E -> bool, limit: nat)
    requires n <= |lines| && |Found(lines[n..], decode, keep)| <= limit
    requires n == 0 || |Found(lines[n..], decode, keep)| == limit
    ensures Found(lines[n..], decode, keep) == LastN(Found(lines, decode, keep), limit)
    ensures Entries(lines[n..], decode) == LastN(Entries(lines, decode), |Entries(lines[n..], decode)|)
  {
    assert lines[..n] + lines[n..] == lines;
    FoundConcat(lines[..n], lines[n..], decode, keep);
    EntriesConcat(lines[..n], lines[n..], decode);
    if n == 0 { assert lines[0..] == lines; }
  }

  /** The scan from the newest line back, stopped at the limit and turned round: exactly the last
      matching entries in file order, with how many entries were looked at and how many there
      are. It looks at no entry more than it has to. */
  method Scan<E, R>(lines: seq<string>, decode: string -> Option<E>, keep: E -> bool, show: E -> R, limit: nat)
    returns (results: seq<R>, scanned: nat, total: nat)
    requires limit >= 1
    ensures results == Shown(LastN(Found(lines, decode, keep), limit), show)
    ensures total == |Entries(lines, decode)| && scanned <= total
    ensures Filter(LastN(Entries(lines, decode), scanned), keep) == LastN(Found(lines, decode, keep), limit)
    ensures scanned < total ==> |LastN(Found(lines, decode, keep), limit)| == limit &&
                                keep(Entries(lines, decode)[total - scanned])
  {
    results, scanned := [], 0;
    var n := |lines|;
    ghost var seen, found := [], [];
    while n > 0 && |results| < limit
      invariant 0 <= n <= |lines| && seen == Entries(lines[n..], decode) && found == Found(lines[n..], decode, keep)
      invariant scanned == |seen| && |results| == |found| <= limit
      invariant Reversed(results) == Shown(found, show)
      invariant |results| == limit ==> scanned > 0 && keep(seen[0])
      decreases n
    {
      n := n - 1;
      FoundStep(lines, n, decode, keep);
      var entry := Parse(lines[n], decode);
      if entry.Some? {
        scanned, seen := scanned + 1, [entry.value] + seen;
        if keep(entry.value) {
          ReversedSnoc(results, show(entry.value));
          ShownCons(entry.value, found, show);
          results, found := results + [show(entry.value)], [entry.value] + found;
        }
      }
    }
    EnoughIsLast(lines, n, decode, keep, limit);
    results := Reversed(results);
    total := CountEntries(lines, decode);
    LastNIs(Entries(lines, decode), seen);
    if n == 0 { assert lines[0..] == lines; }
  }

  lemma LastNIs<T>(s: seq<T>, last: seq<T>)
    requires last == LastN(s, |last|)
    ensures |last| <= |s| && (last != [] ==> last[0] == s[|s| - |last|])
  {
  }

  /** A page over a log file: the error list, or the audit with its larger limit. */
  method Page<E, R>(file: Option<seq<Byte>>, asked: Option<int>, audit: bool, decode: string -> Option<E>,
                    keep: E -> bool, show: E -> R)
    returns (results: seq<R>, scanned: nat, total: nat)
    ensures var lines := Tail(file, 10 * 1024 * 1024);
            var limit := Limit(asked, if audit then 500 else 200);
            results == Shown(LastN(Found(lines, decode, keep), limit), show) &&
            total == |Entries(lines, decode)| && scanned <= total
  {
    var limit := Limit(asked, if audit then MCP_AUDIT_MAX_LIMIT else MAX_LIMIT);
    results, scanned, total := Scan(Tail(file, MAX_TAIL_BYTES), decode, keep, show, limit);
  }

  method CountEntries<E>(lines: seq<string>, decode: string -> Option<E>) returns (total: nat)
    ensures total == |Entries(lines, decode)|
  {
    total := 0;
    var n := 0;
    while n < |lines|
      invariant n <= |lines| && total + |Entries(lines[n..], decode)| == |Entries(lines, decode)|
    {
      EntriesStep(lines, n, decode);
      if Parse(lines[n], decode).Some? {
        total := total + 1;
      }
      n := n + 1;
    }
  }

  lemma LastOfSuffix<T>(a: seq<T>, b: seq<T>, limit: nat)
    ensures LastN(b, limit) == LastN(a + b, limit) <==> |b| >= limit || a == []
  {
  }

  /** What a page shows of the window is what it would show of the whole file exactly when the
      window holds enough matches, or every match there is. */
  lemma WindowShowsTheFileExactly<E>(bytes: seq<Byte>, most: nat, decode: string -> Option<E>, keep: E -> bool,
                                     limit: nat)
    ensures var here := Found(Tail(Some(bytes), most), decode, keep);
            var all := Found(Lines(bytes), decode, keep);
            LastN(here, limit) == LastN(all, limit) <==> |here| >= limit || |here| == |all|
  {
    TailIsSuffix(bytes, most);
    var window := Tail(Some(bytes), most);
    var before := SuffixSplits(window, Lines(bytes));
    FoundConcat(before, window, decode, keep);
    LastOfSuffix(Found(before, decode, keep), Found(window, decode, keep), limit);
  }

  /** Once enough of the entries that start inside the last bytes match, a page shows the newest
      matches of the whole file. */
  lemma NewestAreShown<E>(a: seq<Byte>, b: seq<Byte>, most: nat, decode: string -> Option<E>, keep: E -> bool,
                          limit: nat)
    requires EndsLine(a) && |b| < most && |Found(Lines(b), decode, keep)| >= limit
    ensures LastN(Found(Tail(Some(a + b), most), decode, keep), limit) ==
            LastN(Found(Lines(a + b), decode, keep), limit)
  {
    var window := Tail(Some(a + b), most);
    WindowHolds(a, b, most);
    var before := SuffixSplits(Lines(b), window);
    FoundConcat(before, Lines(b), decode, keep);
    WindowShowsTheFileExactly(a + b, most, decode, keep, limit);
  }
}
