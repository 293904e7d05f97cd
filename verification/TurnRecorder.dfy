/** The record of one agent turn (blueprints/agent.py, _TurnRecorder and _record_stream). The
    functions give the record as a fold over the frames and say what that fold means; the class
    keeps it the way the source does, with tool entries shared between the list of tools and
    the table of open calls. */
module TurnRecorder {
  import opened Wrappers

  datatype Outcome = Outcome(ok: bool, result: string, duration: int)

  datatype Frame =
    | Token(delta: string)
    | Ui(delta: string)
    | Begin(runId: string, sessionId: string)
    | ToolStart(id: string, name: string, args: string)
    | ToolEnd(id: string, name: string, outcome: Outcome)
    | Viz(spec: string)
    | Usage(total: int)
    | Notice(body: string)
    | Error(body: string)
    | Confirm(body: string)
    | Other

  /** One entry of the tools list; an end without a start has no arguments. */
  datatype Tool = Tool(id: string, name: string, args: Option<string>, outcome: Option<Outcome>)

  /** The tools list and, per open call, the place of its entry. */
  datatype Calls = Calls(tools: seq<Tool>, open: map<string, nat>)

  datatype Record = Record(text: seq<string>, calls: Calls, notices: seq<Frame>, viz: seq<Frame>, ui: seq<string>,
                           usage: Option<Frame>, runId: string, sessionId: string, paused: bool)

  const EMPTY := Record([], Calls([], map[]), [], [], [], None, "", "", false)

  const MAX_STORED_VIZ: nat := 4

  predicate IsNotice(f: Frame) { f.Notice? || f.Error? || f.Confirm? }

  predicate IsChart(f: Frame) { f.Viz? }

  predicate IsMarkup(f: Frame) { f.Ui? }

  predicate IsUsage(f: Frame) { f.Usage? }

  function ObserveCall(c: Calls, f: Frame): Calls {
    match f
    case ToolStart(id, name, args) =>
      Calls(c.tools + [Tool(id, name, Some(args), None)], c.open[id := |c.tools|])
    case ToolEnd(id, name, outcome) =>
      if id in c.open && c.open[id] < |c.tools| then
        Calls(c.tools[c.open[id] := c.tools[c.open[id]].(outcome := Some(outcome))], Without(c.open, id))
      else c.(tools := c.tools + [Tool(id, name, None, Some(outcome))])
    case _ => c
  }

  function Observe(r: Record, f: Frame): Record {
    Record(
      if f.Token? then r.text + [f.delta] else r.text,
      ObserveCall(r.calls, f),
      if IsNotice(f) then r.notices + [f] else r.notices,
      if f.Viz? && |r.viz| < MAX_STORED_VIZ then r.viz + [f] else r.viz,
      if f.Ui? then r.ui + [f.delta] else r.ui,
      if f.Usage? then Some(f) else r.usage,
      if f.Begin? then f.runId else r.runId,
      if f.Begin? then f.sessionId else r.sessionId,
      r.paused || f.Confirm?)
  }

  function Fold(frames: seq<Frame>): Record {
    if frames == [] then EMPTY else Observe(Fold(frames[..|frames| - 1]), frames[|frames| - 1])
  }

  function Concat(parts: seq<string>): string {
    if parts == [] then "" else Concat(parts[..|parts| - 1]) + parts[|parts| - 1]
  }

  /** content(). */
  function Content(r: Record): string { Concat(r.text) }

  /** One entry beside the prose: a frame as it came, the interface markup, or the run's id. */
  datatype Entry = Kept(frame: Frame) | Markup(content: string) | RunOf(runId: string)

  function KeptAll(frames: seq<Frame>): seq<Entry> {
    if frames == [] then [] else [Kept(frames[0])] + KeptAll(frames[1..])
  }

  /** sidecar(). */
  function Sidecar(r: Record): seq<Entry> {
    KeptAll(r.notices) + KeptAll(r.viz) + (if r.ui != [] then [Markup(Concat(r.ui))] else [])
    + (if r.usage.Some? then [Kept(r.usage.value)] else [])
    + (if r.runId != "" then [RunOf(r.runId)] else [])
  }

  /** has_content(). */
  predicate HasContent(r: Record) {
    r.text != [] || r.calls.tools != [] || r.notices != [] || r.viz != [] || r.ui != [] || r.usage.Some?
  }

  // ---- What the fold means, apart from tools ----

  function Prose(frames: seq<Frame>): string {
    if frames == [] then ""
    else Prose(frames[..|frames| - 1])
         + (if frames[|frames| - 1].Token? then frames[|frames| - 1].delta else "")
  }

  function Only(frames: seq<Frame>, keep: Frame -> bool): seq<Frame> {
    if frames == [] then []
    else Only(frames[..|frames| - 1], keep)
         + (if keep(frames[|frames| - 1]) then [frames[|frames| - 1]] else [])
  }

  /** The text is every delta, in order. */
  lemma {:induction false} ProseInOrder(frames: seq<Frame>)
    ensures Content(Fold(frames)) == Prose(frames)
  {
    if frames != [] {
      var before, f := Fold(frames[..|frames| - 1]), frames[|frames| - 1];
      ProseInOrder(frames[..|frames| - 1]);
      if f.Token? {
        assert (before.text + [f.delta])[..|before.text|] == before.text;
      }
    }
  }

  /** The charts are the first four, in order. */
  lemma {:induction false} FirstFourCharts(frames: seq<Frame>)
    ensures var charts := Only(frames, IsChart);
            Fold(frames).viz == if |charts| <= 4 then charts else charts[..4]
  {
    if frames != [] {
      FirstFourCharts(frames[..|frames| - 1]);
    }
  }

  /** Notices, errors and confirmations are kept in order; a pause is a confirmation seen. */
  lemma {:induction false} NoticesInOrder(frames: seq<Frame>)
    ensures Fold(frames).notices == Only(frames, IsNotice)
    ensures Fold(frames).paused <==> Only(frames, (f: Frame) => f.Confirm?) != []
  {
    if frames != [] {
      NoticesInOrder(frames[..|frames| - 1]);
    }
  }

  /** The stored usage is the last one seen. */
  lemma {:induction false} UsageIsLast(frames: seq<Frame>)
    ensures var all := Only(frames, IsUsage);
            Fold(frames).usage == if all == [] then None else Some(all[|all| - 1])
  {
    if frames != [] {
      UsageIsLast(frames[..|frames| - 1]);
    }
  }

  /** The interface markup is every part of it, in order. */
  function MarkupOf(frames: seq<Frame>): string {
    if frames == [] then ""
    else MarkupOf(frames[..|frames| - 1]) + (if frames[|frames| - 1].Ui? then frames[|frames| - 1].delta else "")
  }

  lemma {:induction false} MarkupInOrder(frames: seq<Frame>)
    ensures Concat(Fold(frames).ui) == MarkupOf(frames)
    ensures Fold(frames).ui == [] <==> Only(frames, IsMarkup) == []
  {
    if frames != [] {
      var before, f := Fold(frames[..|frames| - 1]), frames[|frames| - 1];
      MarkupInOrder(frames[..|frames| - 1]);
      if f.Ui? {
        assert (before.ui + [f.delta])[..|before.ui|] == before.ui;
      }
    }
  }

  function LastStart(frames: seq<Frame>): (f: Frame)
    ensures f.Begin?
  {
    if frames == [] then Begin("", "")
    else if frames[|frames| - 1].Begin? then frames[|frames| - 1] else LastStart(frames[..|frames| - 1])
  }

  lemma StartStep(r: Record, f: Frame)
    ensures Begin(Observe(r, f).runId, Observe(r, f).sessionId) ==
            if f.Begin? then f else Begin(r.runId, r.sessionId)
  {
  }

  /** The run and session a turn is stored under are those of the last start frame. */
  lemma {:induction false} LastStartNamesTheRun(frames: seq<Frame>)
    ensures Begin(Fold(frames).runId, Fold(frames).sessionId) == LastStart(frames)
  {
    if frames != [] {
      LastStartNamesTheRun(frames[..|frames| - 1]);
      StartStep(Fold(frames[..|frames| - 1]), frames[|frames| - 1]);
    }
  }

  lemma ContentStep(r: Record, f: Frame)
    ensures HasContent(Observe(r, f)) <==> HasContent(r) || (!f.Begin? && !f.Other?)
  {
  }

  /** A turn is worth storing exactly when a frame other than a start or an unknown one came. */
  lemma {:induction false} ContentExactly(frames: seq<Frame>)
    ensures HasContent(Fold(frames)) <==> Only(frames, (f: Frame) => !f.Begin? && !f.Other?) != []
  {
    if frames != [] {
      ContentExactly(frames[..|frames| - 1]);
      ContentStep(Fold(frames[..|frames| - 1]), frames[|frames| - 1]);
    }
  }

  lemma {:induction false} KeptAt(frames: seq<Frame>)
    ensures |KeptAll(frames)| == |frames| && forall i :: 0 <= i < |frames| ==> KeptAll(frames)[i] == Kept(frames[i])
  {
    if frames != [] { KeptAt(frames[1..]); }
  }

  /** Notices, charts, markup, usage and run, one after another and nothing else. */
  predicate Lists(stored: seq<Entry>, notices: seq<Frame>, charts: seq<Frame>, markup: Option<string>,
                  usage: Option<Frame>, run: string)
  {
    var n := |notices|;
    var v := n + |charts|;
    var u := v + (if markup.None? then 0 else 1);
    var w := u + (if usage.None? then 0 else 1);
    && |stored| == w + (if run == "" then 0 else 1)
    && (forall i :: 0 <= i < n ==> stored[i] == Kept(notices[i]))
    && (forall i :: n <= i < v ==> stored[i] == Kept(charts[i - n]))
    && (markup.Some? ==> stored[v] == Markup(markup.value))
    && (usage.Some? ==> stored[u] == Kept(usage.value))
    && (run != "" ==> stored[w] == RunOf(run))
  }

  lemma SidecarAt(r: Record)
    ensures Lists(Sidecar(r), r.notices, r.viz, if r.ui == [] then None else Some(Concat(r.ui)), r.usage, r.runId)
  {
    KeptAt(r.notices);
    KeptAt(r.viz);
  }

  /** Beside the prose of a whole stream are stored its notices, then its first four charts, then its
      markup in one piece, its last usage and the run of its last start, each of these three only
      if the stream had it. */
  lemma SidecarInOrder(frames: seq<Frame>)
    ensures var charts, markup, usage := Only(frames, IsChart), Only(frames, IsMarkup), Only(frames, IsUsage);
            Lists(Sidecar(Fold(frames)), Only(frames, IsNotice), if |charts| <= 4 then charts else charts[..4],
                  if markup == [] then None else Some(MarkupOf(frames)),
                  if usage == [] then None else Some(usage[|usage| - 1]), LastStart(frames).runId)
  {
    NoticesInOrder(frames);
    FirstFourCharts(frames);
    MarkupInOrder(frames);
    UsageIsLast(frames);
    LastStartNamesTheRun(frames);
    SidecarAt(Fold(frames));
  }

  // ---- Tools ----

  predicate About(f: Frame, id: string) { (f.ToolStart? || f.ToolEnd?) && f.id == id }

  /** The last frame about a call, if there is one. */
  function LastAbout(frames: seq<Frame>, id: string): Option<nat> {
    if frames == [] then None
    else if About(frames[|frames| - 1], id) then Some(|frames| - 1)
    else LastAbout(frames[..|frames| - 1], id)
  }

  /** The next frame about a call, from a place on. */
  function NextAbout(frames: seq<Frame>, id: string, from: nat): Option<nat>
    decreases |frames| - from
  {
    if from >= |frames| then None
    else if About(frames[from], id) then Some(from)
    else NextAbout(frames, id, from + 1)
  }

  /** An end whose call has no open start makes an entry of its own. */
  predicate OwnEntry(frames: seq<Frame>, at: nat)
    requires at < |frames|
  {
    frames[at].ToolEnd? &&
    var last := LastAbout(frames[..at], frames[at].id);
    !(last.Some? && last.value < at && frames[last.value].ToolStart?)
  }

  predicate MakesEntry(frames: seq<Frame>, at: nat)
    requires at < |frames|
  {
    frames[at].ToolStart? || OwnEntry(frames, at)
  }

  /** How many of the first n frames make an entry. */
  function Entries(frames: seq<Frame>, n: nat): nat
    requires n <= |frames|
  {
    if n == 0 then 0 else Entries(frames, n - 1) + (if MakesEntry(frames, n - 1) then 1 else 0)
  }

  /** The entry a frame makes: a start is completed by the next frame about its call, if that
      is an end. */
  function EntryOf(frames: seq<Frame>, at: nat): Tool
    requires at < |frames| && MakesEntry(frames, at)
  {
    var f := frames[at];
    if f.ToolEnd? then Tool(f.id, f.name, None, Some(f.outcome))
    else
      var next := NextAbout(frames, f.id, at + 1);
      Tool(f.id, f.name, Some(f.args),
           if next.Some? && next.value < |frames| && frames[next.value].ToolEnd?
           then Some(frames[next.value].outcome) else None)
  }

  lemma {:induction false} LastAboutIs(frames: seq<Frame>, id: string)
    ensures match LastAbout(frames, id)
            case Some(i) => i < |frames| && About(frames[i], id) &&
                            forall k :: i < k < |frames| ==> !About(frames[k], id)
            case None => forall k :: 0 <= k < |frames| ==> !About(frames[k], id)
  {
    if frames != [] && !About(frames[|frames| - 1], id) {
      LastAboutIs(frames[..|frames| - 1], id);
    }
  }

  lemma {:induction false} NextAboutIs(frames: seq<Frame>, id: string, from: nat)
    ensures match NextAbout(frames, id, from)
            case Some(j) => from <= j < |frames| && About(frames[j], id) &&
                            forall k :: from <= k < j ==> !About(frames[k], id)
            case None => forall k :: from <= k < |frames| ==> !About(frames[k], id)
    decreases |frames| - from
  {
    if from < |frames| && !About(frames[from], id) {
      NextAboutIs(frames, id, from + 1);
    }
  }

  /** Which frames make an entry, and where it goes, is settled when the frame comes. */
  lemma {:induction false} EntriesSettled(init: seq<Frame>, f: Frame, n: nat)
    requires n <= |init|
    ensures Entries(init + [f], n) == Entries(init, n)
    ensures n < |init| ==> (MakesEntry(init + [f], n) <==> MakesEntry(init, n))
  {
    if n < |init| { assert (init + [f])[..n] == init[..n]; }
    if n > 0 {
      EntriesSettled(init, f, n - 1);
    }
  }

  lemma {:induction false} EntriesGrow(frames: seq<Frame>, m: nat, n: nat)
    requires m <= n <= |frames|
    ensures Entries(frames, m) <= Entries(frames, n)
    ensures m < n && MakesEntry(frames, m) ==> Entries(frames, m) < Entries(frames, n)
  {
    if m < n {
      EntriesGrow(frames, m, n - 1);
    }
  }

  /** A call is open when the last frame about it is a start; it is that start's. */
  function OpenStart(frames: seq<Frame>, id: string): Option<nat> {
    var last := LastAbout(frames, id);
    if last.Some? && last.value < |frames| && frames[last.value].ToolStart? then last else None
  }

  /** The open table names exactly the open calls, each by the entry of its start; the tools
      are the entries, one per frame that makes one, in frame order. */
  ghost predicate Refines(c: Calls, frames: seq<Frame>) {
    && |c.tools| == Entries(frames, |frames|)
    && (forall at: nat :: at < |frames| && MakesEntry(frames, at) ==>
          Entries(frames, at) < |c.tools| && c.tools[Entries(frames, at)] == EntryOf(frames, at))
    && (forall id :: id in c.open <==> OpenStart(frames, id).Some?)
    && (forall id :: id in c.open ==> c.open[id] == Entries(frames, OpenStart(frames, id).value))
  }

  lemma LastSnoc(init: seq<Frame>, f: Frame, id: string)
    ensures LastAbout(init + [f], id) == if About(f, id) then Some(|init|) else LastAbout(init, id)
  {
    assert (init + [f])[..|init|] == init && (init + [f])[|init|] == f;
  }

  lemma {:induction false} NextSnoc(init: seq<Frame>, f: Frame, id: string, from: nat)
    requires from <= |init|
    ensures NextAbout(init + [f], id, from) ==
            if NextAbout(init, id, from).Some? then NextAbout(init, id, from)
            else if About(f, id) then Some(|init|) else None
    decreases |init| - from
  {
    if from < |init| && !About(init[from], id) {
      NextSnoc(init, f, id, from + 1);
    }
  }

  /** A later frame changes an entry only when it is the end of a call that entry has open. */
  lemma EntryOfSnoc(init: seq<Frame>, f: Frame, at: nat)
    requires at < |init| && MakesEntry(init, at)
    ensures MakesEntry(init + [f], at)
    ensures EntryOf(init + [f], at) ==
            if f.ToolEnd? && OpenStart(init, f.id) == Some(at) then EntryOf(init, at).(outcome := Some(f.outcome))
            else EntryOf(init, at)
  {
    EntriesSettled(init, f, at);
    var g := init[at];
    NextSnoc(init, f, g.id, at + 1);
    NextAboutIs(init, g.id, at + 1);
    LastAboutIs(init, g.id);
    if f.ToolEnd? { LastAboutIs(init, f.id); }
  }

  lemma SettledEntry(c: Calls, init: seq<Frame>, f: Frame, at: nat)
    requires Refines(c, init) && at < |init| && MakesEntry(init + [f], at)
    ensures Entries(init + [f], at) < |c.tools| <= |ObserveCall(c, f).tools|
    ensures ObserveCall(c, f).tools[Entries(init + [f], at)] == EntryOf(init + [f], at)
  {
    EntriesSettled(init, f, at);
    EntryOfSnoc(init, f, at);
    if f.ToolEnd? && f.id in c.open {
      var start := OpenStart(init, f.id).value;
      LastAboutIs(init, f.id);
      EntriesGrow(init, start, |init|);
      if start < at {
        EntriesGrow(init, start, at);
      } else if at < start {
        EntriesGrow(init, at, start);
      }
    }
  }

  lemma NewEntry(c: Calls, init: seq<Frame>, f: Frame)
    requires Refines(c, init)
    ensures var frames := init + [f];
            |ObserveCall(c, f).tools| == Entries(frames, |frames|) &&
            (MakesEntry(frames, |init|) ==>
               Entries(frames, |init|) < |ObserveCall(c, f).tools| &&
               ObserveCall(c, f).tools[Entries(frames, |init|)] == EntryOf(frames, |init|))
  {
    assert (init + [f])[..|init|] == init;
    EntriesSettled(init, f, |init|);
    if f.ToolEnd? && f.id in c.open {
      LastAboutIs(init, f.id);
      EntriesGrow(init, OpenStart(init, f.id).value, |init|);
    }
  }

  lemma OpenSnoc(c: Calls, init: seq<Frame>, f: Frame, id: string)
    requires Refines(c, init)
    ensures id in ObserveCall(c, f).open <==> OpenStart(init + [f], id).Some?
    ensures id in ObserveCall(c, f).open ==>
              ObserveCall(c, f).open[id] == Entries(init + [f], OpenStart(init + [f], id).value)
  {
    LastSnoc(init, f, id);
    LastAboutIs(init, id);
    EntriesSettled(init, f, |init|);
    if id in c.open {
      var start := OpenStart(init, id).value;
      EntriesSettled(init, f, start);
      EntriesGrow(init, start, |init|);
    }
  }

  lemma RefinesStep(c: Calls, init: seq<Frame>, f: Frame)
    requires Refines(c, init)
    ensures Refines(ObserveCall(c, f), init + [f])
  {
    var frames, c' := init + [f], ObserveCall(c, f);
    NewEntry(c, init, f);
    forall at: nat | at < |frames| && MakesEntry(frames, at)
      ensures Entries(frames, at) < |c'.tools| && c'.tools[Entries(frames, at)] == EntryOf(frames, at)
    {
      if at < |init| { SettledEntry(c, init, f, at); }
    }
    forall id
      ensures id in c'.open <==> OpenStart(frames, id).Some?
      ensures id in c'.open ==> c'.open[id] == Entries(frames, OpenStart(frames, id).value)
    {
      OpenSnoc(c, init, f, id);
    }
  }

  /** Every tool end completes the latest open start with its id, or is an entry of its own,
      over every stream of frames. */
  lemma {:induction false} ToolsRefineTheStream(frames: seq<Frame>)
    ensures Refines(Fold(frames).calls, frames)
  {
    if frames != [] {
      var init, f := frames[..|frames| - 1], frames[|frames| - 1];
      ToolsRefineTheStream(init);
      RefinesStep(Fold(init).calls, init, f);
      assert init + [f] == frames;
    }
  }

  // ---- The recorder as it is kept: entries shared between the list and the open table ----

  /** The open table points only at entries of its own call that have not ended. */
  predicate OpenSound(c: Calls) {
    forall id :: id in c.open ==>
      c.open[id] < |c.tools| && c.tools[c.open[id]].id == id && c.tools[c.open[id]].outcome == None
  }

  lemma OpenSoundStep(c: Calls, f: Frame)
    requires OpenSound(c)
    ensures OpenSound(ObserveCall(c, f))
  {
  }

  /** Over every stream. */
  lemma {:induction false} OpenPointsAtUnended(frames: seq<Frame>)
    ensures OpenSound(Fold(frames).calls)
  {
    if frames != [] {
      OpenPointsAtUnended(frames[..|frames| - 1]);
      OpenSoundStep(Fold(frames[..|frames| - 1]).calls, frames[|frames| - 1]);
    }
  }

  class ToolEntry {
    const id: string
    const name: string
    const args: Option<string>
    var outcome: Option<Outcome>

    constructor (id: string, name: string, args: Option<string>)
      ensures View() == Tool(id, name, args, None)
    {
      this.id, this.name, this.args, outcome := id, name, args, None;
    }

    function View(): Tool
      reads this
    {
      Tool(id, name, args, outcome)
    }
  }

  class Recorder {
    var text: seq<string>
    var tools: seq<ToolEntry>
    var openCalls: map<string, ToolEntry>
    var notices: seq<Frame>
    var viz: seq<Frame>
    var ui: seq<string>
    var usage: Option<Frame>
    var runId: string
    var sessionId: string
    var paused: bool
    ghost var model: Record

    constructor ()
      ensures Valid() && model == EMPTY && tools == []
    {
      text, tools, openCalls, notices, viz, ui := [], [], map[], [], [], [];
      usage, runId, sessionId, paused, model := None, "", "", false, EMPTY;
    }

    /** The shared entries read as these calls. */
    ghost predicate Shows(c: Calls)
      reads this`tools, this`openCalls, tools
    {
      && |tools| == |c.tools|
      && (forall i :: 0 <= i < |tools| ==> tools[i].View() == c.tools[i])
      && (forall i, j :: 0 <= i < j < |tools| ==> tools[i] != tools[j])
      && openCalls.Keys == c.open.Keys
      && (forall id :: id in openCalls ==> c.open[id] < |tools| && openCalls[id] == tools[c.open[id]])
    }

    /** The other fields are the model's. */
    ghost predicate Keeps()
      reads this
    {
      model == Record(text, model.calls, notices, viz, ui, usage, runId, sessionId, paused)
    }

    ghost predicate Valid()
      reads this, tools
    {
      Shows(model.calls) && OpenSound(model.calls) && Keeps()
    }

    method StartCall(id: string, name: string, args: string, ghost c: Calls)
      requires Shows(c)
      modifies this`tools, this`openCalls
      ensures Shows(ObserveCall(c, ToolStart(id, name, args)))
      ensures old(tools) <= tools && forall i :: |old(tools)| <= i < |tools| ==> fresh(tools[i])
    {
      var entry := new ToolEntry(id, name, Some(args));
      tools := tools + [entry];
      openCalls := openCalls[id := entry];
    }

    method EndCall(id: string, name: string, outcome: Outcome, ghost c: Calls)
      requires Shows(c) && OpenSound(c)
      modifies this`tools, this`openCalls, tools
      ensures Shows(ObserveCall(c, ToolEnd(id, name, outcome)))
      ensures old(tools) <= tools && forall i :: |old(tools)| <= i < |tools| ==> fresh(tools[i])
    {
      var entry;
      if id in openCalls {
        entry := openCalls[id];
        openCalls := Without(openCalls, id);
      } else {
        entry := new ToolEntry(id, name, None);
        tools := tools + [entry];
      }
      entry.outcome := Some(outcome);
    }

    /** Every frame that is not about a tool call. */
    method ObserveOther(f: Frame)
      requires !f.ToolStart? && !f.ToolEnd? && Keeps()
      modifies this`text, this`ui, this`runId, this`sessionId, this`viz, this`usage, this`notices, this`paused,
               this`model
      ensures Keeps() && model == Observe(old(model), f)
    {
      match f {
        case Token(delta) => text := text + [delta];
        case Ui(delta) => ui := ui + [delta];
        case Begin(run, session) => runId, sessionId := run, session;
        case Viz(_) => if |viz| < MAX_STORED_VIZ { viz := viz + [f]; }
        case Usage(_) => usage := Some(f);
        case Notice(_) => notices := notices + [f];
        case Error(_) => notices := notices + [f];
        case Confirm(_) => paused, notices := true, notices + [f];
        case _ =>
      }
      model := Observe(model, f);
    }

    /** Every frame that is about one. */
    method ObserveTool(f: Frame)
      requires (f.ToolStart? || f.ToolEnd?) && Valid()
      modifies this`tools, this`openCalls, this`model, tools
      ensures Valid() && model == old(model).(calls := ObserveCall(old(model).calls, f))
      ensures old(tools) <= tools && forall i :: |old(tools)| <= i < |tools| ==> fresh(tools[i])
    {
      ghost var c := model.calls;
      OpenSoundStep(c, f);
      if f.ToolStart? {
        StartCall(f.id, f.name, f.args, c);
      } else {
        EndCall(f.id, f.name, f.outcome, c);
      }
      model := model.(calls := ObserveCall(c, f));
    }

    /** observe(): the shared entries go on reading as the fold of one frame more. */
    method ObserveFrame(f: Frame)
      requires Valid()
      modifies this, tools
      ensures Valid() && model == Observe(old(model), f)
      ensures old(tools) <= tools && forall i :: |old(tools)| <= i < |tools| ==> fresh(tools[i])
    {
      if f.ToolStart? || f.ToolEnd? {
        ObserveTool(f);
      } else {
        ObserveOther(f);
      }
    }

    /** What passing one readable chunk does: its frame is observed, if it carries one. */
    method Take(chunk: Chunk)
      requires Valid()
      modifies this, tools
      ensures Valid() && model == if chunk.carries.Data? then Observe(old(model), chunk.carries.frame) else old(model)
      ensures old(tools) <= tools && forall i :: |old(tools)| <= i < |tools| ==> fresh(tools[i])
    {
      if chunk.carries.Data? {
        ObserveFrame(chunk.carries.frame);
      }
    }

    /** _persist_turn(): the stored turn is what the model says it is. */
    method Persist(binds: bool, writes: bool) returns (saved: Option<Turn>)
      requires Valid()
      ensures saved == Persisted(model, binds, writes)
    {
      var views := seq(|tools|, i requires 0 <= i < |tools| reads this, tools => tools[i].View());
      assert views == model.calls.tools;
      var kept := Record(text, Calls(views, map[]), notices, viz, ui, usage, runId, sessionId, paused);
      saved := Persisted(kept, binds, writes);
    }
  }

  // ---- The stream passing by ----

  datatype Carried = Nothing | Unreadable | NotAnObject | Data(frame: Frame)

  datatype Chunk = Chunk(body: string, carries: Carried)

  /** The row of a finished turn. */
  datatype Turn = Turn(content: string, tools: seq<Tool>, notices: seq<Entry>)

  /** What is stored, given whether binding the session and adding the message work: a session
      that cannot be bound takes the message with it. */
  function Persisted(r: Record, binds: bool, writes: bool): Option<Turn> {
    if HasContent(r) && writes && (r.sessionId == "" || binds)
    then Some(Turn(Content(r), r.calls.tools, Sidecar(r))) else None
  }

  /** A turn is stored exactly when it had something besides starts, its session, if it has one, was
      bound, and the write worked; what is stored is its prose and its tools. */
  lemma StoredExactly(frames: seq<Frame>, binds: bool, writes: bool)
    ensures var stored := Persisted(Fold(frames), binds, writes);
            && (stored.Some? <==>
                Only(frames, (f: Frame) => !f.Begin? && !f.Other?) != [] && writes &&
                (LastStart(frames).sessionId == "" || binds))
            && (stored.Some? ==>
                  stored.value.content == Prose(frames) && stored.value.tools == Fold(frames).calls.tools &&
                  stored.value.notices == Sidecar(Fold(frames)))
  {
    ContentExactly(frames);
    ProseInOrder(frames);
    LastStartNamesTheRun(frames);
  }

  function FramesOf(chunks: seq<Chunk>): seq<Frame> {
    if chunks == [] then []
    else FramesOf(chunks[..|chunks| - 1])
         + (if chunks[|chunks| - 1].carries.Data? then [chunks[|chunks| - 1].carries.frame] else [])
  }

  /** The first n chunks all reach a client that asks for them. */
  predicate Readable(chunks: seq<Chunk>, n: nat)
    requires n <= |chunks|
  {
    forall i :: 0 <= i < n ==> chunks[i].carries != NotAnObject
  }

  /** How many chunks reach a client that asks for so many: a frame that is JSON but no object
      raises past the handler. */
  function Delivered(chunks: seq<Chunk>, asked: nat): (n: nat)
    ensures n <= |chunks| && n <= asked && Readable(chunks, n)
    ensures n < asked && n < |chunks| ==> chunks[n].carries == NotAnObject
  {
    if chunks == [] || asked == 0 || chunks[0].carries == NotAnObject then 0
    else
      var n := Delivered(chunks[1..], asked - 1);
      assert forall i :: 0 < i < n + 1 ==> chunks[i] == chunks[1..][i - 1];
      n + 1
  }

  lemma DeliveredIs(chunks: seq<Chunk>, asked: nat, n: nat)
    requires n <= |chunks| && n <= asked && Readable(chunks, n)
    requires n < asked && n < |chunks| ==> chunks[n].carries == NotAnObject
    ensures Delivered(chunks, asked) == n
  {
  }

  /** The stream is cut short exactly when one of the chunks asked for is such a frame. */
  lemma CutShortExactly(chunks: seq<Chunk>, asked: nat)
    ensures Delivered(chunks, asked) < asked && Delivered(chunks, asked) < |chunks| <==>
            exists i :: 0 <= i < |chunks| && i < asked && chunks[i].carries == NotAnObject
  {
    var n := Delivered(chunks, asked);
    if n < asked && n < |chunks| { assert chunks[n].carries == NotAnObject; }
  }

  /** One of them alone: nothing reaches the client and nothing is stored. */
  lemma NotAnObjectAlone(body: string, asked: nat, binds: bool, writes: bool)
    requires asked > 0
    ensures var chunks := [Chunk(body, NotAnObject)];
            Delivered(chunks, asked) == 0 && Persisted(Told(chunks, 0), binds, writes) == None
  {
    assert [Chunk(body, NotAnObject)][..0] == [];
  }

  /** What the first n chunks fold to. */
  function Told(chunks: seq<Chunk>, n: nat): Record
    requires n <= |chunks|
  {
    Fold(FramesOf(chunks[..n]))
  }

  lemma ToldStep(chunks: seq<Chunk>, n: nat)
    requires n < |chunks|
    ensures Told(chunks, n + 1) ==
            if chunks[n].carries.Data? then Observe(Told(chunks, n), chunks[n].carries.frame) else Told(chunks, n)
  {
    var before, after := FramesOf(chunks[..n]), FramesOf(chunks[..n + 1]);
    assert chunks[..n + 1][..n] == chunks[..n];
    if chunks[n].carries.Data? {
      assert after == before + [chunks[n].carries.frame] && after[..|before|] == before;
    } else {
      assert after == before;
    }
  }

  /** _record_stream() for a client that asks for so many chunks and then closes: the prefix that is
      delivered goes through as it came, and a stream that was started leaves exactly the turn its
      delivered frames fold to. */
  method RecordStream(chunks: seq<Chunk>, asked: nat, binds: bool, writes: bool)
    returns (sent: seq<Chunk>, saved: Option<Turn>)
    ensures sent <= chunks && |sent| == Delivered(chunks, asked)
    ensures saved == if asked == 0 then None else Persisted(Told(chunks, |sent|), binds, writes)
  {
    sent, saved := [], None;
    if asked == 0 { return; }
    var recorder := new Recorder();
    assert recorder.model == Told(chunks, 0);
    sent := PassOn(recorder, chunks, asked);
    DeliveredIs(chunks, asked, |sent|);
    saved := recorder.Persist(binds, writes);
  }

  /** The loop: each chunk is recorded and then handed on, until the client has what it asked
      for or a frame is not an object. */
  method PassOn(recorder: Recorder, chunks: seq<Chunk>, asked: nat) returns (sent: seq<Chunk>)
    requires recorder.Valid() && recorder.model == Told(chunks, 0)
    modifies recorder, recorder.tools
    ensures recorder.Valid() && sent <= chunks && recorder.model == Told(chunks, |sent|)
    ensures |sent| <= asked && Readable(chunks, |sent|)
    ensures |sent| < asked && |sent| < |chunks| ==> chunks[|sent|].carries == NotAnObject
  {
    sent := [];
    var n := 0;
    while n < |chunks| && n < asked && chunks[n].carries != NotAnObject
      invariant n <= |chunks| && n <= asked && Readable(chunks, n) && sent == chunks[..n]
      invariant recorder.Valid() && recorder.model == Told(chunks, n)
      invariant old(recorder.tools) <= recorder.tools
      invariant forall i :: |old(recorder.tools)| <= i < |recorder.tools| ==> fresh(recorder.tools[i])
    {
      ToldStep(chunks, n);
      recorder.Take(chunks[n]);
      sent := sent + [chunks[n]];
      n := n + 1;
    }
  }

  /** A client that leaves after some chunks leaves the prose of exactly those chunks, with one
      tool entry per call they started or ended alone. */
  lemma PartialTurnKept(chunks: seq<Chunk>, n: nat)
    requires n <= |chunks|
    ensures var frames, turn := FramesOf(chunks[..n]), Persisted(Told(chunks, n), true, true);
            (turn.Some? <==> Only(frames, (f: Frame) => !f.Begin? && !f.Other?) != []) &&
            (turn.Some? ==> turn.value.content == Prose(frames) &&
                            exists open :: Refines(Calls(turn.value.tools, open), frames))
  {
    var frames := FramesOf(chunks[..n]);
    ContentExactly(frames);
    ProseInOrder(frames);
    ToolsRefineTheStream(frames);
    var c := Told(chunks, n).calls;
    assert Refines(Calls(c.tools, c.open), frames);
  }

  // ---- Forgetting the runs of removed rows ----

  /** The run ids a list of sidecar entries carries, as truncation collects them. */
  function RunIdsIn(entries: seq<Entry>): seq<string> {
    if entries == [] then []
    else (if entries[0].RunOf? && entries[0].runId != "" then [entries[0].runId] else []) + RunIdsIn(entries[1..])
  }

  function RunIds(rows: seq<seq<Entry>>): seq<string> {
    if rows == [] then [] else RunIdsIn(rows[0]) + RunIds(rows[1..])
  }

  lemma {:induction false} RunIdsConcat(a: seq<Entry>, b: seq<Entry>)
    ensures RunIdsIn(a + b) == RunIdsIn(a) + RunIdsIn(b)
  {
    if a == [] {
      assert a + b == b;
    } else {
      assert (a + b)[1..] == a[1..] + b;
      RunIdsConcat(a[1..], b);
    }
  }

  lemma {:induction false} KeptHaveNoRun(frames: seq<Frame>)
    ensures RunIdsIn(KeptAll(frames)) == []
  {
    if frames != [] {
      assert KeptAll(frames)[1..] == KeptAll(frames[1..]);
      KeptHaveNoRun(frames[1..]);
    }
  }

  lemma NoRun(a: seq<Entry>, b: seq<Entry>)
    requires RunIdsIn(a) == [] && RunIdsIn(b) == []
    ensures RunIdsIn(a + b) == []
  {
    RunIdsConcat(a, b);
  }

  /** Whatever a turn recorded, its row gives back its own run and no other. */
  lemma SidecarCarriesItsRun(r: Record)
    ensures RunIdsIn(Sidecar(r)) == if r.runId == "" then [] else [r.runId]
    ensures RunIdsIn([RunOf("")]) == []
  {
    var notices, viz := KeptAll(r.notices), KeptAll(r.viz);
    var ui := if r.ui != [] then [Markup(Concat(r.ui))] else [];
    var usage := if r.usage.Some? then [Kept(r.usage.value)] else [];
    KeptHaveNoRun(r.notices);
    KeptHaveNoRun(r.viz);
    NoRun(notices, viz);
    NoRun(notices + viz, ui);
    NoRun(notices + viz + ui, usage);
    RunIdsConcat(notices + viz + ui + usage, if r.runId != "" then [RunOf(r.runId)] else []);
  }

  function Sidecars(turns: seq<Record>): seq<seq<Entry>> {
    if turns == [] then [] else [Sidecar(turns[0])] + Sidecars(turns[1..])
  }

  function RunsOf(turns: seq<Record>): seq<string> {
    if turns == [] then [] else (if turns[0].runId == "" then [] else [turns[0].runId]) + RunsOf(turns[1..])
  }

  /** Truncating answers forgets each of their runs once, in order, and nothing else. */
  lemma {:induction false} TruncationForgetsTheirRuns(turns: seq<Record>)
    ensures RunIds(Sidecars(turns)) == RunsOf(turns)
  {
    if turns != [] {
      assert Sidecars(turns)[1..] == Sidecars(turns[1..]);
      SidecarCarriesItsRun(turns[0]);
      TruncationForgetsTheirRuns(turns[1..]);
    }
  }
}
