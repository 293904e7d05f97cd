/** What a turn was built with, written beside the operator's message and read back when a
    paused run is resumed (blueprints/agent.py, _reasoning_effort_of to _run_options_of and the
    merge in _chat_confirm_body). Stored JSON may hold anything; the reader checks it again. */
module RunOptions {
  import opened Wrappers
  import opened Text
  import opened Sorting

  /** A JSON value as Python reads it; a number keeps the text str() gives it. */
  datatype Json =
    | Null
    | Bool(on: bool)
    | Number(shown: string, zero: bool)
    | Str(text: string)
    | List(items: seq<Json>)
    | Dict(fields: seq<(string, Json)>)

  datatype Row = Row(role: string, content: string, notices: Json)

  /** What a run is built with. */
  datatype Options = Options(effort: Option<string>, lines: seq<string>, web: bool)

  const EFFORTS := {"off", "low", "medium", "high"}
  const MAX_RUNTIME_LINES: nat := 10
  const MAX_ROWS_READ: nat := 500

  /** dict.get(). */
  function Get(fields: seq<(string, Json)>, key: string): Json {
    if fields == [] then Null else if fields[0].0 == key then fields[0].1 else Get(fields[1..], key)
  }

  predicate Falsy(j: Json) {
    match j
    case Null => true
    case Bool(on) => !on
    case Number(_, zero) => zero
    case Str(text) => text == ""
    case List(items) => items == []
    case Dict(fields) => fields == []
  }

  /** str(); of a list or a mapping only the bracket it starts with matters here. */
  function Shown(j: Json): string {
    match j
    case Null => "None"
    case Bool(on) => if on then "True" else "False"
    case Number(shown, _) => shown
    case Str(text) => text
    case List(_) => "[]"
    case Dict(_) => "{}"
  }

  /** _reasoning_effort_of(): an effort or none, or an error. */
  datatype Chosen = Chosen(effort: Option<string>) | BadEffort

  function EffortOf(raw: Json): Chosen {
    if raw == Null || raw == Str("") then Chosen(None)
    else
      var effort := Lower(Strip(Shown(raw)));
      if effort in EFFORTS then Chosen(Some(effort)) else BadEffort
  }

  predicate Scalar(j: Json) { j.Bool? || j.Number? || j.Str? }

  function Line(field: (string, Json)): string { Clip(field.0, 40) + ": " + Clip(Shown(field.1), 120) }

  function LinesFrom(fields: seq<(string, Json)>, room: nat): seq<string> {
    if fields == [] || room == 0 then []
    else if Scalar(fields[0].1) then [Line(fields[0])] + LinesFrom(fields[1..], room - 1)
    else LinesFrom(fields[1..], room)
  }

  predicate KeyLe(a: (string, Json), b: (string, Json)) { StringLe(a.0, b.0) }

  function RuntimeLines(context: Json): seq<string> {
    if context.Dict? then LinesFrom(Sort(context.fields, KeyLe), MAX_RUNTIME_LINES) else []
  }

  /** _web_search_of(). */
  predicate WebSearchOf(raw: Json) {
    match raw
    case Null => true
    case Str(text) => Lower(Strip(text)) !in {"false", "0", "off", "no", ""}
    case _ => !Falsy(raw)
  }

  function Strings(texts: seq<string>): seq<Json> { seq(|texts|, i requires 0 <= i < |texts| => Str(texts[i])) }

  function WebField(web: bool): seq<(string, Json)> {
    if web then [] else [("web_search", Bool(false))]
  }

  function LinesField(lines: seq<string>, rest: seq<(string, Json)>): seq<(string, Json)> {
    if lines == [] then rest else [("runtime_lines", List(Strings(lines)))] + rest
  }

  function EffortField(effort: Option<string>, rest: seq<(string, Json)>): seq<(string, Json)> {
    if effort.None? || effort.value == "" then rest else [("reasoning_effort", Str(effort.value))] + rest
  }

  function EntryFields(o: Options): seq<(string, Json)> {
    [("type", Str("run_options"))] + EffortField(o.effort, LinesField(o.lines, WebField(o.web)))
  }

  function Attached(files: seq<Json>): Json { Dict([("type", Str("attachments")), ("items", List(files))]) }

  /** _run_options_notice(), as the column stores it. */
  function Notice(o: Options, files: seq<Json>): Json {
    var attached := if files == [] then [] else [Attached(files)];
    if |EntryFields(o)| > 1 then List([Dict(EntryFields(o))] + attached)
    else if attached == [] then Null else List(attached)
  }

  function StoredLines(items: seq<Json>): seq<string> {
    if items == [] then []
    else (if items[0].Str? then [Clip(items[0].text, 200)] else []) + StoredLines(items[1..])
  }

  predicate IsRunOptions(j: Json) { j.Dict? && Get(j.fields, "type") == Str("run_options") }

  function StoredEffort(raw: Json): Option<string> {
    var effort := Lower(Strip(if Falsy(raw) then "" else Shown(raw)));
    if effort in EFFORTS then Some(effort) else None
  }

  function LinesOfEntry(lines: Json): seq<string> {
    if !lines.List? then []
    else StoredLines(if |lines.items| <= MAX_RUNTIME_LINES then lines.items else lines.items[..MAX_RUNTIME_LINES])
  }

  function OptionsOfEntry(fields: seq<(string, Json)>): Options {
    Options(StoredEffort(Get(fields, "reasoning_effort")), LinesOfEntry(Get(fields, "runtime_lines")),
            Get(fields, "web_search") != Bool(false))
  }

  const NO_OPTIONS := Options(None, [], true)

  function FirstOptions(items: seq<Json>): Options {
    if items == [] then NO_OPTIONS
    else if IsRunOptions(items[0]) then OptionsOfEntry(items[0].fields) else FirstOptions(items[1..])
  }

  /** _run_options_of(). */
  function OptionsOf(notices: Json): Options {
    if notices.List? then FirstOptions(notices.items) else NO_OPTIONS
  }

  // ---- What a request asks for ----

  /** An effort is one of four words, whatever their case and the space around them; nothing asked is
      no effort, and anything else is refused. */
  lemma EffortExactly(raw: Json)
    requires !raw.Number?
    ensures EffortOf(raw) == Chosen(None) <==> raw == Null || raw == Str("")
    ensures EffortOf(raw).Chosen? && EffortOf(raw).effort.Some? <==>
            raw.Str? && Lower(Strip(raw.text)) in {"off", "low", "medium", "high"}
    ensures EffortOf(raw).Chosen? && EffortOf(raw).effort.Some? ==>
              EffortOf(raw).effort.value == Lower(Strip(raw.text))
  {
    assert Strip("") == "" && Lower("") == "";
    assert Strip("True") == "True" && Lower("True")[0] == 't';
    assert Strip("False") == "False" && Lower("False")[0] == 'f';
    assert Strip("[]") == "[]" && Lower("[]")[0] == '[' && Strip("{}") == "{}" && Lower("{}")[0] == '{';
  }

  /** The web is off when one of these was sent, and on otherwise, also when nothing was. */
  lemma WebExactly(raw: Json)
    ensures !WebSearchOf(raw) <==>
            raw in {Bool(false), List([]), Dict([])} || (raw.Number? && raw.zero) ||
            (raw.Str? && Lower(Strip(raw.text)) in {"false", "0", "off", "no", ""})
  {
  }

  /** A line is the field's name and its value, each cut when too long. */
  lemma LineIs(key: string, value: Json)
    requires Scalar(value)
    ensures var text := (match value
                         case Bool(on) => if on then "True" else "False"
                         case Number(shown, _) => shown
                         case Str(text) => text
                         case _ => "");
            Line((key, value)) ==
            (if |key| <= 40 then key else key[..40]) + ": " + (if |text| <= 120 then text else text[..120])
  {
  }

  /** A field with a value of its own; lists and mappings have none. */
  predicate HasLine(field: (string, Json)) { field.1.Bool? || field.1.Number? || field.1.Str? }

  lemma {:induction false} LinesFromAre(fields: seq<(string, Json)>, room: nat)
    ensures var shown := Filter(fields, HasLine);
            |LinesFrom(fields, room)| == (if |shown| <= room then |shown| else room) &&
            forall i :: 0 <= i < |LinesFrom(fields, room)| ==> LinesFrom(fields, room)[i] == Line(shown[i])
  {
    if fields != [] && room > 0 {
      FilterHead(fields, HasLine);
      if Scalar(fields[0].1) {
        LinesFromAre(fields[1..], room - 1);
      } else {
        LinesFromAre(fields[1..], room);
      }
    }
  }

  /** The lines are those of the first ten fields that have a value, in the order of their names. */
  lemma RuntimeLinesAre(fields: seq<(string, Json)>)
    ensures var shown, lines := Filter(Sort(fields, KeyLe), HasLine), RuntimeLines(Dict(fields));
            |lines| == (if |shown| <= 10 then |shown| else 10) &&
            forall i :: 0 <= i < |lines| ==> lines[i] == Line(shown[i])
    ensures var sorted := Sort(fields, KeyLe);
            multiset(sorted) == multiset(fields) &&
            forall i, j :: 0 <= i < j < |sorted| ==> !StringLess(sorted[j].0, sorted[i].0)
  {
    var sorted := Sort(fields, KeyLe);
    LinesFromAre(sorted, 10);
    StringLeTotal();
    SortSorts(fields, KeyLe);
    forall i, j | 0 <= i < j < |sorted| ensures !StringLess(sorted[j].0, sorted[i].0) {
      SortedAt(sorted, KeyLe, i, j);
    }
  }

  // ---- Bounds and order of the chart lines ----

  lemma {:induction false} LinesBounded(fields: seq<(string, Json)>, room: nat)
    ensures |LinesFrom(fields, room)| <= room
    ensures forall line :: line in LinesFrom(fields, room) ==> |line| <= 162
  {
    if fields != [] && room > 0 {
      if Scalar(fields[0].1) {
        LinesBounded(fields[1..], room - 1);
      } else {
        LinesBounded(fields[1..], room);
      }
    }
  }

  /** Whatever the client sent, at most ten lines of at most 162 characters reach the prompt. */
  lemma RuntimeLinesBounded(context: Json)
    ensures |RuntimeLines(context)| <= 10
    ensures forall line :: line in RuntimeLines(context) ==> |line| <= 162
  {
    if context.Dict? { LinesBounded(Sort(context.fields, KeyLe), MAX_RUNTIME_LINES); }
  }

  predicate DistinctKeys(fields: seq<(string, Json)>) {
    forall a, b :: a in fields && b in fields && a.0 == b.0 ==> a == b
  }

  /** The lines do not depend on the order in which the client sent its fields. */
  lemma OrderOfFieldsIrrelevant(a: seq<(string, Json)>, b: seq<(string, Json)>)
    requires DistinctKeys(a) && multiset(a) == multiset(b)
    ensures RuntimeLines(Dict(a)) == RuntimeLines(Dict(b))
  {
    StringLeTotal();
    assert TotalPreorder(KeyLe);
    SortSorts(a, KeyLe);
    SortSorts(b, KeyLe);
    forall x, y | x in Sort(a, KeyLe) && y in Sort(a, KeyLe) && KeyLe(x, y) && KeyLe(y, x) ensures x == y {
      StringTrichotomy(x.0, y.0);
      assert x in multiset(a) && y in multiset(a);
    }
    SortedUnique(Sort(a, KeyLe), Sort(b, KeyLe), KeyLe);
  }

  // ---- The round trip ----

  lemma EffortStays(effort: string)
    requires effort in EFFORTS
    ensures Lower(Strip(effort)) == effort && effort != ""
  {
  }

  lemma {:induction false} LinesStay(lines: seq<string>)
    requires forall line :: line in lines ==> |line| <= 200
    ensures StoredLines(Strings(lines)) == lines
  {
    if lines != [] {
      assert Strings(lines)[1..] == Strings(lines[1..]);
      assert lines[0] in lines;
      LinesStay(lines[1..]);
    }
  }

  lemma GetCons(key: string, value: Json, rest: seq<(string, Json)>, wanted: string)
    ensures Get([(key, value)] + rest, wanted) == if key == wanted then value else Get(rest, wanted)
  {
  }

  lemma EntryGet(o: Options, key: string)
    ensures Get(EntryFields(o), key) ==
            if key == "type" then Str("run_options")
            else if key == "reasoning_effort" && o.effort.Some? && o.effort.value != "" then Str(o.effort.value)
            else if key == "runtime_lines" && o.lines != [] then List(Strings(o.lines))
            else if key == "web_search" && !o.web then Bool(false)
            else Null
  {
    var lines := LinesField(o.lines, WebField(o.web));
    GetCons("type", Str("run_options"), EffortField(o.effort, lines), key);
    if o.effort.Some? { GetCons("reasoning_effort", Str(o.effort.value), lines, key); }
    GetCons("runtime_lines", List(Strings(o.lines)), WebField(o.web), key);
    GetCons("web_search", Bool(false), [], key);
    assert [("web_search", Bool(false))] + [] == [("web_search", Bool(false))];
  }

  predicate Storable(o: Options) {
    && (o.effort.Some? ==> o.effort.value in EFFORTS)
    && |o.lines| <= MAX_RUNTIME_LINES && (forall line :: line in o.lines ==> |line| <= 200)
  }

  lemma EffortRecovered(o: Options)
    requires Storable(o)
    ensures StoredEffort(Get(EntryFields(o), "reasoning_effort")) == o.effort
  {
    EntryGet(o, "reasoning_effort");
    if o.effort.Some? { EffortStays(o.effort.value); }
    assert Lower(Strip("")) == "";
  }

  lemma LinesRecovered(o: Options)
    requires Storable(o)
    ensures LinesOfEntry(Get(EntryFields(o), "runtime_lines")) == o.lines
  {
    EntryGet(o, "runtime_lines");
    LinesStay(o.lines);
  }

  /** Every field of the stored entry is read back. */
  lemma EntryRecovered(o: Options)
    requires Storable(o)
    ensures IsRunOptions(Dict(EntryFields(o))) && OptionsOfEntry(EntryFields(o)) == o
  {
    EntryGet(o, "type");
    EffortRecovered(o);
    LinesRecovered(o);
    EntryGet(o, "web_search");
  }

  lemma FirstIsRecovered(o: Options, rest: seq<Json>)
    requires Storable(o)
    ensures FirstOptions([Dict(EntryFields(o))] + rest) == o
  {
    EntryRecovered(o);
  }

  /** Nothing is stored beside a plain message; the files sent with one are, last, in an entry of
      their own. */
  lemma NoticeHolds(o: Options, files: seq<Json>)
    requires Storable(o)
    ensures Notice(o, files) == Null <==> o == Options(None, [], true) && files == []
    ensures files != [] ==>
              Notice(o, files).List? && Notice(o, files).items != [] &&
              var last := Notice(o, files).items[|Notice(o, files).items| - 1];
              last == Dict([("type", Str("attachments")), ("items", List(files))])
    ensures files == [] && Notice(o, files) != Null ==>
              Notice(o, files).List? && |Notice(o, files).items| == 1 && IsRunOptions(Notice(o, files).items[0])
  {
    EntryGet(o, "type");
  }

  lemma AttachmentsSkipped(files: seq<Json>)
    ensures FirstOptions([Attached(files)]) == NO_OPTIONS
  {
  }

  lemma OptionsRecovered(o: Options, files: seq<Json>)
    requires Storable(o)
    ensures OptionsOf(Notice(o, files)) == o
  {
    if |EntryFields(o)| > 1 {
      FirstIsRecovered(o, if files == [] then [] else [Attached(files)]);
    } else {
      assert o == NO_OPTIONS;
      AttachmentsSkipped(files);
    }
  }

  /** Whatever a request asked for, a resume recovers exactly that, attachments or not. */
  lemma RequestRoundTrip(effort: Json, context: Json, web: Json, files: seq<Json>)
    requires EffortOf(effort).Chosen?
    ensures var asked := Options(EffortOf(effort).effort, RuntimeLines(context), WebSearchOf(web));
            OptionsOf(Notice(asked, files)) == asked
  {
    RuntimeLinesBounded(context);
    OptionsRecovered(Options(EffortOf(effort).effort, RuntimeLines(context), WebSearchOf(web)), files);
  }

  lemma {:induction false} StoredLinesBounded(items: seq<Json>)
    ensures |StoredLines(items)| <= |items|
    ensures forall line :: line in StoredLines(items) ==> |line| <= 200
  {
    if items != [] { StoredLinesBounded(items[1..]); }
  }

  /** However the column was written, what comes out is fit to build a run with. */
  lemma {:induction false} AlwaysFit(items: seq<Json>)
    ensures Storable(FirstOptions(items))
  {
    if items != [] {
      if IsRunOptions(items[0]) {
        var lines := Get(items[0].fields, "runtime_lines");
        if lines.List? {
          StoredLinesBounded(if |lines.items| <= MAX_RUNTIME_LINES then lines.items
                             else lines.items[..MAX_RUNTIME_LINES]);
        }
      } else {
        AlwaysFit(items[1..]);
      }
    }
  }

  // ---- Resuming ----

  /** The rows one read returns: the newest. */
  function Newest(rows: seq<Row>): seq<Row> {
    if |rows| <= MAX_ROWS_READ then rows else rows[|rows| - MAX_ROWS_READ..]
  }

  function LastUser(rows: seq<Row>): Option<Row> {
    if rows == [] then None
    else if rows[|rows| - 1].role == "user" then Some(rows[|rows| - 1])
    else LastUser(rows[..|rows| - 1])
  }

  /** _last_user_row(); a read that fails gives no row. */
  function LastUserRow(rows: seq<Row>, readable: bool): Option<Row> {
    if readable then LastUser(Newest(rows)) else None
  }

  datatype Event =
    | Add(row: Row)
    | Truncate(keep: nat)
    | Resume(effort: Option<string>, context: Json, web: Json, readable: bool)

  /** The merge in _chat_confirm_body: the client's effort and chart win, the switches both
      have to agree. */
  function Merged(e: Event, stored: Options): Options
    requires e.Resume?
  {
    Options(if e.effort.Some? then e.effort else stored.effort,
            if RuntimeLines(e.context) != [] then RuntimeLines(e.context) else stored.lines,
            stored.web && WebSearchOf(e.web))
  }

  function Resumed(rows: seq<Row>, e: Event): Options
    requires e.Resume?
  {
    var row := LastUserRow(rows, e.readable);
    Merged(e, if row.Some? then OptionsOf(row.value.notices) else NO_OPTIONS)
  }

  function Next(rows: seq<Row>, e: Event): seq<Row> {
    match e
    case Add(row) => rows + [row]
    case Truncate(keep) => if keep < |rows| then rows[..keep] else rows
    case Resume(_, _, _, _) => rows
  }

  /** The resumes of a run of events, each with what it is built with. */
  function Builds(rows: seq<Row>, events: seq<Event>): seq<(Event, Options)>
    decreases events
  {
    if events == [] then []
    else
      var rest := Builds(Next(rows, events[0]), events[1..]);
      if events[0].Resume? then [(events[0], Resumed(rows, events[0]))] + rest else rest
  }

  lemma {:induction false} LastUserIs(rows: seq<Row>, k: nat)
    requires k < |rows| && rows[k].role == "user"
    requires forall i :: k < i < |rows| ==> rows[i].role != "user"
    ensures LastUser(rows) == Some(rows[k])
  {
    if k < |rows| - 1 { LastUserIs(rows[..|rows| - 1], k); }
  }

  lemma {:induction false} LastUserExists(rows: seq<Row>) returns (k: nat)
    requires LastUser(rows).Some?
    ensures k < |rows| && rows[k].role == "user" && LastUser(rows).value == rows[k]
    ensures forall i :: k < i < |rows| ==> rows[i].role != "user"
  {
    if rows[|rows| - 1].role == "user" {
      k := |rows| - 1;
    } else {
      k := LastUserExists(rows[..|rows| - 1]);
    }
  }

  /** The last turn of the operator among the rows one read returns. */
  predicate Latest(rows: seq<Row>, k: int) {
    && 0 <= k < |rows| && |rows| - k <= 500 && rows[k].role == "user"
    && forall i :: k < i < |rows| ==> rows[i].role != "user"
  }

  lemma LatestIsRead(rows: seq<Row>, k: int)
    requires Latest(rows, k)
    ensures LastUserRow(rows, true) == Some(rows[k])
  {
    LastUserIs(Newest(rows), k - (|rows| - |Newest(rows)|));
  }

  lemma LatestExists(rows: seq<Row>) returns (k: nat)
    requires LastUserRow(rows, true).Some?
    ensures Latest(rows, k) && LastUserRow(rows, true).value == rows[k]
  {
    var skipped := |rows| - |Newest(rows)|;
    var at := LastUserExists(Newest(rows));
    k := at + skipped;
    forall i | k < i < |rows| ensures rows[i].role != "user" {
      assert rows[i] == Newest(rows)[i - skipped];
    }
  }

  /** A resume reaches the web exactly when its client did not switch it off and no latest
      operator turn was read that did: one that cannot be read, was truncated, has fallen out
      of the rows read, or was followed by another turn with search on, no longer counts. */
  lemma ResumeReachesTheWebExactly(rows: seq<Row>, e: Event)
    requires e.Resume?
    ensures Resumed(rows, e).web <==>
            WebSearchOf(e.web) && !(e.readable && exists k :: Latest(rows, k) && !OptionsOf(rows[k].notices).web)
  {
    if e.readable {
      if LastUserRow(rows, true).Some? {
        var at := LatestExists(rows);
        assert forall k :: Latest(rows, k) ==> k == at;
      } else {
        forall k ensures !Latest(rows, k) {
          if Latest(rows, k) { LatestIsRead(rows, k); }
        }
      }
    }
  }

  lemma {:induction false} NoUser(rows: seq<Row>)
    requires forall i :: 0 <= i < |rows| ==> rows[i].role != "user"
    ensures LastUser(rows) == None
  {
    if rows != [] { NoUser(rows[..|rows| - 1]); }
  }

  /** A turn cut off the chat is forgotten with all that follows it: with none before it, a resume
      is built from nothing but what its client sent. */
  lemma TruncatedIsForgotten(rows: seq<Row>, k: nat, e: Event)
    requires e.Resume? && k < |rows| && forall i :: 0 <= i < k ==> rows[i].role != "user"
    ensures Resumed(Next(rows, Truncate(k)), e) ==
            Options(e.effort, RuntimeLines(e.context), WebSearchOf(e.web))
  {
    if e.readable { NoUser(Newest(rows[..k])); }
  }

  predicate Keeps(rows: seq<Row>, e: Event, k: nat) {
    match e
    case Add(row) => row.role != "user" && |rows| + 1 - k <= 500
    case Truncate(keep) => k < keep
    case Resume(_, _, _, readable) => readable
  }

  /** The operator's turn stays the latest one, and every read of it works. */
  predicate Undisturbed(rows: seq<Row>, events: seq<Event>, k: nat)
    decreases events
  {
    events == [] || (Keeps(rows, events[0], k) && Undisturbed(Next(rows, events[0]), events[1..], k))
  }

  /** Over any number of resumes of an undisturbed turn each is built from that turn and what its
      own client sent, so the switch is never widened and nothing of an earlier resume stays. */
  lemma {:induction false} ResumesNeverWiden(rows: seq<Row>, events: seq<Event>, k: nat)
    requires Latest(rows, k) && Undisturbed(rows, events, k)
    ensures var original := OptionsOf(rows[k].notices);
            forall b :: b in Builds(rows, events) ==>
              b.0.Resume? &&
              b.1.effort == (if b.0.effort.Some? then b.0.effort else original.effort) &&
              b.1.lines == (if RuntimeLines(b.0.context) != [] then RuntimeLines(b.0.context) else original.lines) &&
              (b.1.web <==> original.web && WebSearchOf(b.0.web))
    decreases events
  {
    if events != [] {
      if events[0].Resume? { LatestIsRead(rows, k); }
      ResumesNeverWiden(Next(rows, events[0]), events[1..], k);
    }
  }

  /** A resume that sends nothing of its own is built exactly as the turn was. */
  lemma BareResumeRebuildsTheTurn(rows: seq<Row>, k: nat, o: Options, files: seq<Json>)
    requires Latest(rows, k) && rows[k].notices == Notice(o, files) && Storable(o)
    ensures Resumed(rows, Resume(None, Null, Null, true)) == o
  {
    LatestIsRead(rows, k);
    OptionsRecovered(o, files);
  }

  /** Another question asked while the first is paused widens its resume: the two rows do not
      say which run is resumed. */
  lemma LaterTurnWidens(question: Row, later: Row, o: Options)
    requires question == Row("user", "a", Notice(Options(None, [], false), []))
    requires later == Row("user", "b", Notice(o, [])) && Storable(o) && o.web
    ensures Resumed([question], Resume(None, Null, Null, true)).web == false
    ensures Resumed([question, later], Resume(None, Null, Null, true)).web == true
  {
    BareResumeRebuildsTheTurn([question], 0, Options(None, [], false), []);
    BareResumeRebuildsTheTurn([question, later], 1, o, []);
  }

  // ---- The loops ----

  lemma LinesStep(fields: seq<(string, Json)>, n: nat, room: nat)
    requires n < |fields| && room > 0
    ensures LinesFrom(fields[n..], room) ==
            if Scalar(fields[n].1) then [Line(fields[n])] + LinesFrom(fields[n + 1..], room - 1)
            else LinesFrom(fields[n + 1..], room)
  {
    assert fields[n..][1..] == fields[n + 1..];
  }

  method RenderLines(context: Json) returns (lines: seq<string>)
    ensures lines == RuntimeLines(context)
  {
    lines := [];
    if !context.Dict? { return; }
    var sorted := Sort(context.fields, KeyLe);
    var n := 0;
    while n < |sorted|
      invariant n <= |sorted| && |lines| < MAX_RUNTIME_LINES
      invariant lines + LinesFrom(sorted[n..], MAX_RUNTIME_LINES - |lines|) == RuntimeLines(context)
    {
      LinesStep(sorted, n, MAX_RUNTIME_LINES - |lines|);
      if Scalar(sorted[n].1) {
        Assoc(lines, [Line(sorted[n])], LinesFrom(sorted[n + 1..], MAX_RUNTIME_LINES - |lines| - 1));
        lines := lines + [Line(sorted[n])];
        if |lines| >= MAX_RUNTIME_LINES { return; }
      }
      n := n + 1;
    }
  }

  method ReadOptions(notices: Json) returns (o: Options)
    ensures o == OptionsOf(notices)
  {
    if !notices.List? { return NO_OPTIONS; }
    var n := 0;
    while n < |notices.items|
      invariant n <= |notices.items|
      invariant FirstOptions(notices.items[n..]) == OptionsOf(notices)
    {
      if IsRunOptions(notices.items[n]) { return OptionsOfEntry(notices.items[n].fields); }
      assert notices.items[n..][1..] == notices.items[n + 1..];
      n := n + 1;
    }
    return NO_OPTIONS;
  }

  method FindLastUser(rows: seq<Row>, readable: bool) returns (row: Option<Row>)
    ensures row == LastUserRow(rows, readable)
  {
    if !readable { return None; }
    var read := Newest(rows);
    var n: nat := |read|;
    assert read[..n] == read;
    while n > 0
      invariant n <= |read| && LastUser(read[..n]) == LastUser(read)
    {
      assert read[..n][..n - 1] == read[..n - 1];
      n := n - 1;
      if read[n].role == "user" { return Some(read[n]); }
    }
    return None;
  }
}
