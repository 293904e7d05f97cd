/** The square-off jobs of the Chartink strategies under the gthread worker
    (blueprints/chartink.py): what creation, toggling, deletion and the restore after a
    restart keep of them. The restore reads the strategies once and then comes to them one by
    one; each call of anybody to the store or the scheduler is a step, and every other request
    may fall between any two of them. */
module SquareoffJobs {
  import opened Wrappers

  datatype Clock = Clock(hour: int, minute: int)

  type Id = int

  predicate IsDigit(c: char) { '0' <= c <= '9' }

  /** One or two digits below a bound, as both strptime and int read them. */
  function ParseField(text: string, bound: nat): Option<nat> {
    if |text| == 1 && IsDigit(text[0]) then Some((text[0] - '0') as nat)
    else if |text| == 2 && IsDigit(text[0]) && IsDigit(text[1]) &&
            10 * (text[0] - '0') as nat + (text[1] - '0') as nat < bound
    then Some(10 * (text[0] - '0') as nat + (text[1] - '0') as nat)
    else None
  }

  function ColonAt(text: string): nat
    ensures ColonAt(text) <= |text|
  {
    if text == "" || text[0] == ':' then 0 else 1 + ColonAt(text[1..])
  }

  /** strptime(text, "%H:%M"), and the hour and minute _add_squareoff_job splits out. */
  function ParseTime(text: string): Option<Clock> {
    var colon := ColonAt(text);
    if colon == |text| then None
    else match (ParseField(text[..colon], 24), ParseField(text[colon + 1..], 60))
      case (Some(h), Some(m)) => Some(Clock(h, m))
      case _ => None
  }

  function TwoDigits(n: nat): string
    requires n < 100
  {
    [('0' as int + n / 10) as char, ('0' as int + n % 10) as char]
  }

  /** A number below a hundred in two digits, or in one when that is enough. */
  predicate Written(text: string, n: nat)
    requires n < 100
  {
    text == TwoDigits(n) || (n < 10 && text == TwoDigits(n)[1..])
  }

  lemma FieldReads(text: string, bound: nat, n: nat)
    requires n < bound && 10 <= bound <= 100
    ensures ParseField(text, bound) == Some(n) <==> Written(text, n)
  {
    assert TwoDigits(n)[1..] == [('0' as int + n % 10) as char];
    if |text| == 1 { assert text == [text[0]]; }
    if |text| == 2 { assert text == [text[0], text[1]]; }
  }

  lemma {:induction false} FirstColon(text: string)
    ensures ColonAt(text) < |text| ==> text == text[..ColonAt(text)] + ":" + text[ColonAt(text) + 1..]
    ensures ':' !in text[..ColonAt(text)]
  {
    if text != "" && text[0] != ':' {
      FirstColon(text[1..]);
      assert text[..ColonAt(text)] == [text[0]] + text[1..][..ColonAt(text[1..])];
    }
  }

  lemma {:induction false} ColonAfter(head: string, tail: string)
    requires ':' !in head
    ensures ColonAt(head + ":" + tail) == |head|
  {
    var text := head + ":" + tail;
    if head != "" {
      ColonAfter(head[1..], tail);
      assert text[1..] == head[1..] + ":" + tail;
    }
  }

  /** A text is read as a time of day exactly when it is that time, its hour and its minute each in
      two digits or fewer. */
  lemma TimeReadsExactly(text: string, clock: Clock)
    ensures ParseTime(text) == Some(clock) <==>
            0 <= clock.hour < 24 && 0 <= clock.minute < 60 &&
            exists h, m :: Written(h, clock.hour) && Written(m, clock.minute) && text == h + ":" + m
  {
    if ParseTime(text) == Some(clock) {
      var at := ColonAt(text);
      FirstColon(text);
      FieldReads(text[..at], 24, clock.hour);
      FieldReads(text[at + 1..], 60, clock.minute);
    } else if 0 <= clock.hour < 24 && 0 <= clock.minute < 60 {
      forall h, m | Written(h, clock.hour) && Written(m, clock.minute) ensures text != h + ":" + m {
        FieldReads(h, 24, clock.hour);
        FieldReads(m, 60, clock.minute);
        ColonAfter(h, m);
        assert (h + ":" + m)[..|h|] == h && (h + ":" + m)[|h| + 1..] == m;
      }
    }
  }

  predicate Before(a: Clock, b: Clock) { a.hour < b.hour || (a.hour == b.hour && a.minute < b.minute) }

  datatype Verdict = Valid | StartNotBeforeEnd | EndNotBeforeSquareoff | BadFormat

  /** validate_strategy_times. */
  function ValidateTimes(start: string, end: string, squareoff: string): Verdict {
    match (ParseTime(start), ParseTime(end), ParseTime(squareoff))
    case (Some(s), Some(e), Some(q)) =>
      if !Before(s, e) then StartNotBeforeEnd
      else if !Before(e, q) then EndNotBeforeSquareoff
      else Valid
    case _ => BadFormat
  }

  /** Times are valid exactly when all three can be read and come one after another in the day; the
      verdict names the first pair that does not. */
  lemma TimesExactly(start: string, end: string, squareoff: string)
    ensures var verdict := ValidateTimes(start, end, squareoff);
            match (ParseTime(start), ParseTime(end), ParseTime(squareoff))
            case (Some(s), Some(e), Some(q)) =>
              var from, to, out := 60 * s.hour + s.minute, 60 * e.hour + e.minute, 60 * q.hour + q.minute;
              && (verdict == Valid <==> from < to < out)
              && (verdict == StartNotBeforeEnd <==> from >= to)
              && (verdict == EndNotBeforeSquareoff <==> from < to && to >= out)
            case _ => verdict == BadFormat
  {
  }

  /** A stored square-off time: none (or empty), one that is no time, or a time. */
  datatype Squareoff = Missing | Unreadable | At(clock: Clock)

  function SquareoffOf(text: string): Squareoff {
    if text == "" then Missing
    else match ParseTime(text)
      case None => Unreadable
      case Some(clock) => At(clock)
  }

  datatype Strategy = Strategy(active: bool, intraday: bool, squareoff: Squareoff) {
    predicate Wants() { intraday && squareoff != Missing }
  }

  /** The row a creation stores: nothing for an intraday strategy whose times are refused. */
  function NewRow(intraday: bool, start: string, end: string, squareoff: string): Option<Strategy> {
    if !intraday then Some(Strategy(true, false, Missing))
    else if ValidateTimes(start, end, squareoff) == Valid then Some(Strategy(true, true, SquareoffOf(squareoff)))
    else None
  }

  /** Validated times can be read back, so a new row never holds an unreadable one. */
  lemma NewRowReadable(intraday: bool, start: string, end: string, squareoff: string)
    ensures NewRow(intraday, start, end, squareoff) == None <==>
            intraday && ValidateTimes(start, end, squareoff) != Valid
    ensures NewRow(intraday, start, end, squareoff).Some? ==>
              var row := NewRow(intraday, start, end, squareoff).value;
              row.active && row.intraday == intraday && (row.Wants() <==> intraday) &&
              (intraday ==> row.squareoff.At? && Some(row.squareoff.clock) == ParseTime(squareoff))
  {
  }

  /** Who is at a strategy: a request, or the one restore there is at a time. */
  datatype Who = Request(nat) | Restorer

  /** Somebody between two calls to the store or the scheduler: a creation that has stored its row;
      an activation about to look for a job; _add_squareoff_job for the row its caller read, about
      to look for an old job, to remove it, or to add the new one; a deletion about to look for the
      job, to remove it, or to delete the row. */
  datatype Work =
    | Creating(id: Id)
    | Seeking(id: Id, row: Strategy)
    | Adding(id: Id, row: Strategy, created: bool)
    | Removing(id: Id, row: Strategy, created: bool)
    | Placing(id: Id, row: Strategy, created: bool)
    | Deleting(id: Id)
    | Found(id: Id)
    | Dropping(id: Id)

  /** The strategies, the scheduler's jobs, who is under way, the restored flag, and, while a restore
      runs, the strategies it read and has not come to yet and whether every add worked. */
  datatype Board = Board(strategies: map<Id, Strategy>, jobs: map<Id, Clock>, works: map<Who, Work>, restored: bool,
                         restoring: bool, ahead: map<Id, Strategy>, allAdded: bool)

  datatype Move =
    | Create(r: nat, id: Id, row: Strategy)  // the row is stored
    | Toggle(r: nat, id: Id)                 // the flipped row is stored
    | Delete(r: nat, id: Id)                 // the strategy is there
    | Begin                                  // the restore reads the strategies
    | Visit(id: Id)                          // and looks for one's job
    | End
    | Go(who: Who, works: bool)              // the next call of somebody under way, and whether it works

  function Created(b: Board, r: nat, id: Id, row: Strategy): Board {
    if Request(r) in b.works || id in b.strategies then b
    else b.(strategies := b.strategies[id := row],
            works := if row.Wants() then b.works[Request(r) := Creating(id)] else b.works)
  }

  function Toggled(b: Board, r: nat, id: Id): Board {
    if Request(r) in b.works || id !in b.strategies then b
    else
      var row := b.strategies[id].(active := !b.strategies[id].active);
      b.(strategies := b.strategies[id := row],
         works := if row.active && row.Wants() then b.works[Request(r) := Seeking(id, row)] else b.works)
  }

  function DeleteBegun(b: Board, r: nat, id: Id): Board {
    if Request(r) in b.works || id !in b.strategies then b else b.(works := b.works[Request(r) := Deleting(id)])
  }

  function Begun(b: Board): Board {
    if b.restored || b.restoring then b
    else b.(restoring := true, ahead := b.strategies, allAdded := true)
  }

  /** The loop's next strategy: skipped, or its job is there, or it is to be added. */
  function Faced(b: Board, id: Id): Board {
    if id !in b.ahead || Restorer in b.works then b
    else
      var row, passed := b.ahead[id], b.(ahead := Without(b.ahead, id));
      if !row.Wants() || !row.active || id in b.jobs then passed
      else passed.(works := b.works[Restorer := Adding(id, row, false)])
  }

  function Ended(b: Board): Board {
    if !b.restoring || b.ahead != map[] || Restorer in b.works then b
    else b.(restoring := false, restored := b.allAdded)
  }

  /** Where somebody goes next; nowhere when that was all, or when the call raised. The scheduler
      raises when a job to be removed is gone. */
  function NextPlace(b: Board, w: Work): Option<Work> {
    match w
    case Creating(id) =>
      if id in b.strategies && b.strategies[id].Wants() then Some(Adding(id, b.strategies[id], true)) else None
    case Seeking(id, row) => if id in b.jobs then None else Some(Adding(id, row, false))
    case Adding(id, row, created) =>
      if !row.squareoff.At? then None
      else Some(if id in b.jobs then Removing(id, row, created) else Placing(id, row, created))
    case Removing(id, row, created) => if id in b.jobs then Some(Placing(id, row, created)) else None
    case Placing(_, _, _) => None
    case Deleting(id) => Some(if id in b.jobs then Found(id) else Dropping(id))
    case Found(id) => if id in b.jobs then Some(Dropping(id)) else None
    case Dropping(_) => None
  }

  /** Whether the scheduler takes the job: it raises too when there is one of that name again. */
  predicate Takes(jobs: map<Id, Clock>, w: Work, works: bool) {
    w.Placing? && works && w.id !in jobs && w.row.squareoff.At?
  }

  function JobsNext(jobs: map<Id, Clock>, w: Work, works: bool): map<Id, Clock> {
    if (w.Removing? || w.Found?) && w.id in jobs then Without(jobs, w.id)
    else if Takes(jobs, w, works) then jobs[w.id := w.row.squareoff.clock]
    else jobs
  }

  function RowsNext(strategies: map<Id, Strategy>, w: Work, works: bool): map<Id, Strategy> {
    if w.Dropping? && works then Without(strategies, w.id) else strategies
  }

  /** _add_squareoff_job answers False. */
  predicate AddFails(jobs: map<Id, Clock>, w: Work, works: bool) {
    || (w.Adding? && !w.row.squareoff.At?) || (w.Removing? && w.id !in jobs) || (w.Placing? && !Takes(jobs, w, works))
  }

  /** The next call of whoever is under way. */
  function Went(b: Board, who: Who, works: bool): Board {
    if who !in b.works then b
    else
      var w := b.works[who];
      var next := NextPlace(b, w);
      b.(strategies := RowsNext(b.strategies, w, works), jobs := JobsNext(b.jobs, w, works),
         works := if next.Some? then b.works[who := next.value] else Without(b.works, who),
         allAdded := b.allAdded && !(who == Restorer && AddFails(b.jobs, w, works)))
  }

  function Next(b: Board, m: Move): Board {
    match m
    case Create(r, id, row) => Created(b, r, id, row)
    case Toggle(r, id) => Toggled(b, r, id)
    case Delete(r, id) => DeleteBegun(b, r, id)
    case Begin => Begun(b)
    case Visit(id) => Faced(b, id)
    case End => Ended(b)
    case Go(who, works) => Went(b, who, works)
  }

  function After(b: Board, moves: seq<Move>): Board
    decreases moves
  {
    if moves == [] then b else After(Next(b, moves[0]), moves[1..])
  }

  /** The scheduler raises on a job to be removed that is gone and on one to be added that is there:
      whoever called is through then, no row and no job changes, and a restore knows an add of its own
      did not work. */
  lemma RaisedCalls(b: Board, who: Who, works: bool)
    requires who in b.works
    requires var w := b.works[who];
             ((w.Removing? || w.Found?) && w.id !in b.jobs) || (w.Placing? && (w.id in b.jobs || !works))
    ensures Next(b, Go(who, works)) ==
            b.(works := b.works - {who}, allAdded := b.allAdded && (who != Restorer || b.works[who].Found?))
  {
  }

  /** The restore comes to each strategy it read once, and stays at one that is active and intraday,
      with a time, and has no job. */
  lemma VisitLooks(b: Board, id: Id)
    requires id in b.ahead && Restorer !in b.works
    ensures var b', row := Next(b, Visit(id)), b.ahead[id];
            && b'.ahead == (b.ahead - {id}) && b'.strategies == b.strategies && b'.jobs == b.jobs
            && (Restorer in b'.works <==>
                row.active && row.intraday && row.squareoff != Missing && id !in b.jobs)
            && (Restorer in b'.works ==> b'.works[Restorer] == Adding(id, row, false))
  {
    var passed := b.(ahead := Without(b.ahead, id));
    assert Next(b, Visit(id)) ==
           if b.ahead[id].Wants() && b.ahead[id].active && id !in b.jobs
           then passed.(works := b.works[Restorer := Adding(id, b.ahead[id], false)]) else passed;
  }

  /** A strategy that is not there is neither toggled nor deleted, and one restore runs at a time. */
  lemma NothingToDo(b: Board, r: nat, id: Id)
    ensures id !in b.strategies ==> Next(b, Toggle(r, id)) == b && Next(b, Delete(r, id)) == b
    ensures b.restored || b.restoring ==> Next(b, Begin) == b
  {
  }

  // ---- Who is at a strategy ----

  predicate On(works: map<Who, Work>, id: Id) { exists w :: w in works && works[w].id == id }

  /** Will see to it that there is a job, or that there need not be one. */
  predicate Brings(w: Work) { !w.Removing? && !w.Deleting? && !w.Found? }

  /** A creation that may still have another job to replace. */
  predicate Replaces(w: Work) { w.Creating? || ((w.Adding? || w.Removing?) && w.created) }

  predicate Brought(works: map<Who, Work>, id: Id) { exists w :: w in works && works[w].id == id && Brings(works[w]) }

  predicate Replaced(works: map<Who, Work>, id: Id) {
    exists w :: w in works && works[w].id == id && Replaces(works[w])
  }

  /** Everybody but one is where they were. */
  predicate SameButOne(before: map<Who, Work>, after: map<Who, Work>, who: Who) {
    forall w :: w in before && w != who ==> w in after && after[w] == before[w]
  }

  /** What the others bring, they still bring. */
  lemma OthersStay(before: map<Who, Work>, after: map<Who, Work>, who: Who, id: Id)
    requires SameButOne(before, after, who)
    ensures Brought(before, id) && !(who in before && before[who].id == id && Brings(before[who])) ==>
              Brought(after, id)
    ensures Replaced(before, id) && !(who in before && before[who].id == id && Replaces(before[who])) ==>
              Replaced(after, id)
  {
    if Brought(before, id) && !(who in before && before[who].id == id && Brings(before[who])) {
      var w :| w in before && before[w].id == id && Brings(before[w]);
      assert w in after && after[w] == before[w];
    }
    if Replaced(before, id) && !(who in before && before[who].id == id && Replaces(before[who])) {
      var w :| w in before && before[w].id == id && Replaces(before[w]);
      assert w in after && after[w] == before[w];
    }
  }

  /** And one's next place counts for itself. */
  lemma NextCounts(after: map<Who, Work>, who: Who)
    requires who in after
    ensures Brings(after[who]) ==> Brought(after, after[who].id)
    ensures Replaces(after[who]) ==> Replaced(after, after[who].id)
  {
  }

  /** What a call of somebody at an id leaves alone: the restore's own state, everybody else, every
      other id, and whatever row it does not delete. */
  ghost predicate Frame(b: Board, b': Board, who: Who, id: Id) {
    && b'.restored == b.restored && b'.restoring == b.restoring && b'.ahead == b.ahead && (b'.allAdded ==> b.allAdded)
    && (forall w :: w != who ==> (w in b'.works <==> w in b.works) && (w in b.works ==> b'.works[w] == b.works[w]))
    && (forall k :: k != id ==> (k in b'.jobs <==> k in b.jobs) && (k in b.jobs ==> b'.jobs[k] == b.jobs[k]))
    && (forall k :: k in b'.strategies ==> k in b.strategies && b'.strategies[k] == b.strategies[k])
    && (forall k :: k in b.strategies && k != id ==> k in b'.strategies)
  }

  lemma WentFrame(b: Board, who: Who, works: bool)
    requires who in b.works
    ensures Frame(b, Went(b, who, works), who, b.works[who].id)
  {
  }

  // ---- Coverage ----

  predicate Wanted(b: Board, id: Id) { id in b.strategies && b.strategies[id].active && b.strategies[id].Wants() }

  /** A strategy that should be squared off has a job. */
  predicate Covered(b: Board, id: Id) { Wanted(b, id) ==> id in b.jobs }

  ghost predicate AllCovered(b: Board) { forall id :: Covered(b, id) }

  /** Its job, if it has one, is at its time. */
  predicate OnTime(b: Board, id: Id) {
    id in b.jobs && id in b.strategies && b.strategies[id].Wants() ==>
      b.strategies[id].squareoff == At(b.jobs[id])
  }

  predicate SameButActive(a: Strategy, b: Strategy) { a.(active := b.active) == b }

  /** What holds of one id between any two calls. While a restore runs, a strategy without its job
      has somebody who brings it, or is still ahead, or the restore knows an add failed. */
  predicate SoundAt(b: Board, id: Id) {
    && (OnTime(b, id) || Replaced(b.works, id))
    && (b.restored ==> Covered(b, id) || Brought(b.works, id))
    && (b.restoring && b.allAdded && !Covered(b, id) ==> Brought(b.works, id) || (id in b.ahead && b.ahead[id].active))
    && (id in b.ahead && id in b.strategies ==> SameButActive(b.ahead[id], b.strategies[id]))
  }

  /** Whoever is about to add a job has the time of the strategy that has this id; a request has a
      readable one, and the restore neither creates nor deletes. */
  predicate WorkSound(b: Board, who: Who, w: Work) {
    match w
    case Creating(id) =>
      who.Request? && (id in b.strategies && b.strategies[id].Wants() ==> b.strategies[id].squareoff.At?)
    case Seeking(id, row) => RowSound(b, who, id, row)
    case Adding(id, row, created) => RowSound(b, who, id, row) && (created ==> who.Request?)
    case Removing(id, row, created) => RowSound(b, who, id, row) && (created ==> who.Request?)
    case Placing(id, row, created) => RowSound(b, who, id, row) && (created ==> who.Request?)
    case _ => who.Request?
  }

  predicate RowSound(b: Board, who: Who, id: Id, row: Strategy) {
    && (who.Request? ==> row.squareoff.At?)
    && (id in b.strategies && b.strategies[id].Wants() ==> row.squareoff == b.strategies[id].squareoff)
  }

  /** Only a restore that runs visits, and none runs once one has completed. */
  predicate Flags(b: Board) {
    (b.restored ==> !b.restoring) && (Restorer in b.works ==> b.restoring) && forall id :: id in b.ahead ==> b.restoring
  }

  ghost predicate Sound(b: Board) {
    && Flags(b) && (forall id :: SoundAt(b, id))
    && (forall who :: who in b.works ==> WorkSound(b, who, b.works[who]))
  }

  /** What requests ask for works, times are readable, and an id is given out again only when nobody
      is at it and no restore still has it ahead. What the restore asks for may fail. */
  predicate Works(b: Board, m: Move) {
    match m
    case Create(_, id, row) => !On(b.works, id) && id !in b.ahead && (row.Wants() ==> row.squareoff.At?)
    case Toggle(_, id) => id in b.strategies && b.strategies[id].Wants() ==> b.strategies[id].squareoff.At?
    case Go(who, works) => works || who == Restorer
    case _ => true
  }

  predicate AllWork(b: Board, moves: seq<Move>)
    decreases moves
  {
    moves == [] || (Works(b, moves[0]) && AllWork(Next(b, moves[0]), moves[1..]))
  }

  lemma CreateSound(b: Board, r: nat, other: Id, row: Strategy, id: Id)
    requires Flags(b) && SoundAt(b, id) && Works(b, Create(r, other, row))
    ensures SoundAt(Created(b, r, other, row), id)
  {
    var b' := Created(b, r, other, row);
    OthersStay(b.works, b'.works, Request(r), id);
    if b' != b && row.Wants() { NextCounts(b'.works, Request(r)); }
  }

  lemma ToggleSound(b: Board, r: nat, other: Id, id: Id)
    requires Flags(b) && SoundAt(b, id)
    ensures SoundAt(Toggled(b, r, other), id)
  {
    var b' := Toggled(b, r, other);
    OthersStay(b.works, b'.works, Request(r), id);
    if Request(r) in b'.works { NextCounts(b'.works, Request(r)); }
  }

  lemma DeleteSound(b: Board, r: nat, other: Id, id: Id)
    requires Flags(b) && SoundAt(b, id)
    ensures SoundAt(DeleteBegun(b, r, other), id)
  {
    OthersStay(b.works, DeleteBegun(b, r, other).works, Request(r), id);
  }

  lemma FacedSound(b: Board, other: Id, id: Id)
    requires Flags(b) && SoundAt(b, id)
    ensures SoundAt(Faced(b, other), id)
  {
    var b' := Faced(b, other);
    OthersStay(b.works, b'.works, Restorer, id);
    if Restorer in b'.works { NextCounts(b'.works, Restorer); }
  }

  lemma EndSound(b: Board, id: Id)
    requires Flags(b) && SoundAt(b, id)
    ensures SoundAt(Ended(b), id)
  {
  }

  lemma FrameAt(b: Board, b': Board, who: Who, at: Id, id: Id)
    requires Frame(b, b', who, at) && at != id && SoundAt(b, id)
    requires (Brought(b.works, id) ==> Brought(b'.works, id)) && (Replaced(b.works, id) ==> Replaced(b'.works, id))
    ensures SoundAt(b', id)
  {
    assert id in b'.strategies <==> id in b.strategies;
  }

  /** A call changes nothing of what holds of any other id. */
  lemma GoElsewhere(b: Board, who: Who, works: bool, id: Id)
    requires who in b.works && b.works[who].id != id && SoundAt(b, id)
    ensures SoundAt(Went(b, who, works), id)
  {
    var b' := Went(b, who, works);
    WentFrame(b, who, works);
    OthersStay(b.works, b'.works, who, id);
    FrameAt(b, b', who, b.works[who].id, id);
  }

  /** What going on means at one's own id: the job stays, or is removed by somebody who will bring
      it back or delete the row. */
  lemma GoingOn(b: Board, w: Work, works: bool)
    requires NextPlace(b, w).Some?
    ensures var next, jobs := NextPlace(b, w).value, JobsNext(b.jobs, w, works);
            && next.id == w.id && !w.Dropping? && RowsNext(b.strategies, w, works) == b.strategies
            && (if jobs == b.jobs then Brings(next) || !Brings(w) || w.id in b.jobs
                else jobs == Without(b.jobs, w.id) && Brings(next))
            && (Replaces(w) ==> Replaces(next) || w.id !in jobs)
  {
  }

  lemma GoesOnSoundAt(b: Board, who: Who, works: bool, id: Id)
    requires who in b.works && b.works[who].id == id && SoundAt(b, id) && NextPlace(b, b.works[who]).Some?
    ensures SoundAt(Went(b, who, works), id)
  {
    var b', next := Went(b, who, works), NextPlace(b, b.works[who]).value;
    GoingOn(b, b.works[who], works);
    OthersStay(b.works, b'.works, who, id);
    NextCounts(b'.works, who);
  }

  /** What ending means there: nobody needs it, or it has its job, or the row is gone. */
  lemma EndsSoundAt(b: Board, who: Who, works: bool, id: Id)
    requires Flags(b) && who in b.works && b.works[who].id == id && SoundAt(b, id) && NextPlace(b, b.works[who]).None?
    requires WorkSound(b, who, b.works[who]) && (works || who == Restorer)
    ensures SoundAt(Went(b, who, works), id)
  {
    OthersStay(b.works, Went(b, who, works).works, who, id);
  }

  lemma GoSound(b: Board, who: Who, works: bool, id: Id)
    requires Sound(b) && (works || who == Restorer)
    ensures SoundAt(Went(b, who, works), id)
  {
    assert SoundAt(b, id);
    if who in b.works {
      if b.works[who].id != id {
        GoElsewhere(b, who, works, id);
      } else if NextPlace(b, b.works[who]).Some? {
        GoesOnSoundAt(b, who, works, id);
      } else {
        EndsSoundAt(b, who, works, id);
      }
    }
  }

  lemma SoundAtStep(b: Board, m: Move, id: Id)
    requires Sound(b) && Works(b, m)
    ensures SoundAt(Next(b, m), id)
  {
    assert SoundAt(b, id);
    match m
    case Create(r, other, row) => CreateSound(b, r, other, row, id);
    case Toggle(r, other) => ToggleSound(b, r, other, id);
    case Delete(r, other) => DeleteSound(b, r, other, id);
    case Begin =>
    case Visit(other) => FacedSound(b, other, id);
    case End => EndSound(b, id);
    case Go(who, works) => GoSound(b, who, works, id);
  }

  lemma FlagsStep(b: Board, m: Move)
    requires Flags(b)
    ensures Flags(Next(b, m))
  {
    match m
    case Go(who, works) => if who in b.works { WentFrame(b, who, works); }
    case _ =>
  }

  lemma SameTimes(b: Board, b': Board, who: Who, w: Work)
    requires WorkSound(b, who, w)
    requires w.id in b'.strategies ==> w.id in b.strategies && SameButActive(b.strategies[w.id], b'.strategies[w.id])
    ensures WorkSound(b', who, w)
  {
  }

  lemma GoRowsStay(b: Board, who: Who, works: bool, id: Id)
    requires id in Went(b, who, works).strategies
    ensures id in b.strategies && b.strategies[id] == Went(b, who, works).strategies[id]
  {
    if who in b.works { WentFrame(b, who, works); }
  }

  lemma CreateRowsStay(b: Board, r: nat, other: Id, row: Strategy, id: Id)
    requires On(b.works, id) && !On(b.works, other) && id in Created(b, r, other, row).strategies
    ensures id in b.strategies && b.strategies[id] == Created(b, r, other, row).strategies[id]
  {
  }

  lemma ToggleRowsStay(b: Board, r: nat, other: Id, id: Id)
    requires id in Toggled(b, r, other).strategies
    ensures id in b.strategies && SameButActive(b.strategies[id], Toggled(b, r, other).strategies[id])
  {
  }

  lemma RowsStay(b: Board, m: Move, id: Id)
    requires Works(b, m) && On(b.works, id) && id in Next(b, m).strategies
    ensures id in b.strategies && SameButActive(b.strategies[id], Next(b, m).strategies[id])
  {
    match m
    case Create(r, other, row) => CreateRowsStay(b, r, other, row, id);
    case Toggle(r, other) => ToggleRowsStay(b, r, other, id);
    case Go(who, works) => GoRowsStay(b, who, works, id);
    case _ =>
  }

  /** No call changes the time of a strategy that somebody is at. */
  lemma WorkStays(b: Board, m: Move, who: Who, w: Work)
    requires WorkSound(b, who, w) && Works(b, m) && On(b.works, w.id)
    ensures WorkSound(Next(b, m), who, w)
  {
    var b' := Next(b, m);
    if w.id in b'.strategies { RowsStay(b, m, w.id); }
    SameTimes(b, b', who, w);
  }

  lemma NextPlaceSound(b: Board, who: Who, w: Work)
    requires WorkSound(b, who, w) && NextPlace(b, w).Some?
    ensures WorkSound(b, who, NextPlace(b, w).value)
  {
  }

  /** Whoever goes on at a strategy still has its time. */
  lemma GoesOnSound(b: Board, who: Who, works: bool)
    requires who in b.works && WorkSound(b, who, b.works[who]) && NextPlace(b, b.works[who]).Some?
    ensures WorkSound(Went(b, who, works), who, NextPlace(b, b.works[who]).value)
  {
    NextPlaceSound(b, who, b.works[who]);
    GoingOn(b, b.works[who], works);
    SameTimes(b, Went(b, who, works), who, NextPlace(b, b.works[who]).value);
  }

  /** Whoever comes to a strategy has its time. */
  lemma ComesSound(b: Board, m: Move, who: Who)
    requires !m.Go? && Works(b, m) && (m.Visit? ==> SoundAt(b, m.id))
    requires who in Next(b, m).works && !(who in b.works && b.works[who] == Next(b, m).works[who])
    ensures WorkSound(Next(b, m), who, Next(b, m).works[who])
  {
    match m
    case Create(r, id, row) => assert Next(b, m).works[who] == Creating(id);
    case Toggle(r, id) => assert who == Request(r);
    case Delete(r, id) => assert Next(b, m).works[who] == Deleting(id);
    case Visit(id) => assert who == Restorer;
    case _ =>
  }

  lemma SoundStep(b: Board, m: Move)
    requires Sound(b) && Works(b, m)
    ensures Sound(Next(b, m))
  {
    var b' := Next(b, m);
    forall id ensures SoundAt(b', id) {
      SoundAtStep(b, m, id);
    }
    FlagsStep(b, m);
    forall who | who in b'.works ensures WorkSound(b', who, b'.works[who]) {
      if who in b.works && b.works[who] == b'.works[who] {
        WorkStays(b, m, who, b.works[who]);
      } else if m.Go? {
        if m.who in b.works { WentFrame(b, m.who, m.works); }
        GoesOnSound(b, who, m.works);
      } else {
        if m.Visit? { assert SoundAt(b, m.id); }
        ComesSound(b, m, who);
      }
    }
  }

  /** In every interleaving of the calls of requests and restores, once a restore has completed each
      active intraday strategy with a square-off time has its one job, at that time, unless somebody
      is at that very strategy. */
  lemma {:induction false} SquareoffsCovered(b: Board, moves: seq<Move>)
    requires Sound(b) && AllWork(b, moves)
    ensures Sound(After(b, moves))
    decreases moves
  {
    if moves != [] {
      SoundStep(b, moves[0]);
      SquareoffsCovered(Next(b, moves[0]), moves[1..]);
    }
  }

  /** What that says of a strategy nobody is at. */
  lemma SettledMeans(b: Board, id: Id)
    requires Sound(b) && b.restored && !On(b.works, id) && id in b.strategies
    requires b.strategies[id].active && b.strategies[id].intraday && b.strategies[id].squareoff != Missing
    ensures id in b.jobs && b.strategies[id].squareoff == At(b.jobs[id])
  {
    assert SoundAt(b, id);
  }

  // ---- Jobs at another time ----

  /** A row is stored under an id that has a job at another time, or a job is added at another time
      than the strategy of that id has. */
  predicate Mistimes(b: Board, m: Move, id: Id) {
    match m
    case Create(r, other, row) =>
      Request(r) !in b.works && other == id && id !in b.strategies && row.Wants() && id in b.jobs &&
      row.squareoff != At(b.jobs[id])
    case Go(who, works) =>
      who in b.works && Takes(b.jobs, b.works[who], works) && b.works[who].id == id && id in b.strategies &&
      b.strategies[id].Wants() && b.works[who].row.squareoff != b.strategies[id].squareoff
    case _ => false
  }

  lemma GoMistimes(b: Board, who: Who, works: bool, id: Id)
    requires OnTime(b, id)
    ensures OnTime(Went(b, who, works), id) <==> !Mistimes(b, Go(who, works), id)
  {
    if who in b.works { WentFrame(b, who, works); }
  }

  /** Whatever fails, a job comes to be at another time than its strategy's exactly so. */
  lemma OnTimeExactly(b: Board, m: Move, id: Id)
    requires OnTime(b, id)
    ensures OnTime(Next(b, m), id) <==> !Mistimes(b, m, id)
  {
    match m
    case Go(who, works) => GoMistimes(b, who, works, id);
    case _ =>
  }

  // ---- Deleted strategies ----

  predicate NoOrphan(b: Board, id: Id) { id in b.jobs ==> id in b.strategies }

  /** Somebody adds a job for the row they read before that was deleted, or a row goes for which a
      job was added since the deletion looked for it. */
  predicate Orphans(b: Board, m: Move, id: Id) {
    && m.Go? && m.who in b.works && b.works[m.who].id == id
    && ((Takes(b.jobs, b.works[m.who], m.works) && id !in b.strategies) ||
        (b.works[m.who].Dropping? && m.works && id in b.jobs))
  }

  lemma GoOrphans(b: Board, who: Who, works: bool, id: Id)
    requires NoOrphan(b, id)
    ensures NoOrphan(Went(b, who, works), id) <==> !Orphans(b, Go(who, works), id)
  {
    if who in b.works { WentFrame(b, who, works); }
  }

  /** Whatever fails, a job without a strategy appears exactly in one of those two ways. */
  lemma OrphanExactly(b: Board, m: Move, id: Id)
    requires NoOrphan(b, id)
    ensures NoOrphan(Next(b, m), id) <==> !Orphans(b, m, id)
  {
    match m
    case Go(who, works) => GoOrphans(b, who, works, id);
    case _ =>
  }

  predicate IsDeletion(w: Work) { w.Deleting? || w.Found? || w.Dropping? }

  predicate BeingDeleted(works: map<Who, Work>, id: Id) {
    exists w :: w in works && works[w].id == id && IsDeletion(works[w])
  }

  /** No deletion overlaps with anybody else at its strategy or with a restore that has it ahead. */
  predicate Alone(b: Board, m: Move) {
    match m
    case Create(_, id, _) => !On(b.works, id)
    case Toggle(_, id) => !BeingDeleted(b.works, id)
    case Delete(_, id) => !On(b.works, id) && id !in b.ahead
    case Begin => forall w :: w in b.works ==> !IsDeletion(b.works[w])
    case _ => true
  }

  predicate AllAlone(b: Board, moves: seq<Move>)
    decreases moves
  {
    moves == [] || (Alone(b, moves[0]) && AllAlone(Next(b, moves[0]), moves[1..]))
  }

  /** Whoever is about to add, or a restore about to come to it, finds the strategy; a deletion is
      alone with it, and finds no job any more once it has removed it. */
  ghost predicate CleanAt(b: Board, id: Id) {
    && NoOrphan(b, id) && (id in b.ahead ==> id in b.strategies)
    && (forall w :: w in b.works && b.works[w].id == id ==> CleanWork(b, w, id))
  }

  ghost predicate CleanWork(b: Board, who: Who, id: Id)
    requires who in b.works
  {
    var w := b.works[who];
    && (w.Seeking? || w.Adding? || w.Removing? || w.Placing? ==> id in b.strategies)
    && (IsDeletion(w) ==> id !in b.ahead && forall k :: k in b.works && b.works[k].id == id ==> k == who)
    && (w.Dropping? ==> id !in b.jobs)
  }

  lemma CleanGo(b: Board, who: Who, works: bool, id: Id)
    requires CleanAt(b, id)
    ensures CleanAt(Went(b, who, works), id)
  {
    if who in b.works {
      var b' := Went(b, who, works);
      WentFrame(b, who, works);
      GoOrphans(b, who, works, id);
      forall w | w in b'.works && b'.works[w].id == id ensures CleanWork(b', w, id) {
        if w != who {
          assert CleanWork(b, w, id);
          if b.works[who].id == id { assert CleanWork(b, who, id); }
        } else {
          CleanGoesOn(b, who, works, id);
        }
      }
    }
  }

  lemma CleanGoesOn(b: Board, who: Who, works: bool, id: Id)
    requires CleanAt(b, id) && who in b.works && NextPlace(b, b.works[who]).Some?
    requires b.works[who].id == id && Frame(b, Went(b, who, works), who, id)
    ensures CleanWork(Went(b, who, works), who, id)
  {
    GoingOn(b, b.works[who], works);
    assert CleanWork(b, who, id);
  }

  /** Somebody comes, to this id or another. */
  lemma CleanComes(b: Board, b': Board, who: Who, id: Id)
    requires CleanAt(b, id) && who !in b.works && b'.jobs == b.jobs
    requires id in b.strategies ==> id in b'.strategies
    requires id in b'.ahead ==> id in b.ahead
    requires forall w :: w != who ==> (w in b'.works <==> w in b.works) && (w in b.works ==> b'.works[w] == b.works[w])
    requires who in b'.works && b'.works[who].id == id ==> CleanWork(b', who, id) && !BeingDeleted(b.works, id)
    ensures CleanAt(b', id)
  {
    forall w | w in b'.works && b'.works[w].id == id ensures CleanWork(b', w, id) {
      if w != who { assert CleanWork(b, w, id); }
    }
  }

  lemma CleanCreate(b: Board, r: nat, other: Id, row: Strategy, id: Id)
    requires CleanAt(b, id) && Alone(b, Create(r, other, row))
    ensures CleanAt(Created(b, r, other, row), id)
  {
    if Created(b, r, other, row) != b { CleanComes(b, Created(b, r, other, row), Request(r), id); }
  }

  lemma CleanToggle(b: Board, r: nat, other: Id, id: Id)
    requires CleanAt(b, id) && Alone(b, Toggle(r, other))
    ensures CleanAt(Toggled(b, r, other), id)
  {
    if Toggled(b, r, other) != b { CleanComes(b, Toggled(b, r, other), Request(r), id); }
  }

  lemma CleanDelete(b: Board, r: nat, other: Id, id: Id)
    requires CleanAt(b, id) && Alone(b, Delete(r, other))
    ensures CleanAt(DeleteBegun(b, r, other), id)
  {
    var b' := DeleteBegun(b, r, other);
    if b' != b {
      assert forall w :: w in b'.works && w != Request(r) ==> w in b.works && b'.works[w] == b.works[w];
      CleanComes(b, b', Request(r), id);
    }
  }

  lemma AheadNotDeleted(b: Board, id: Id)
    requires CleanAt(b, id) && id in b.ahead
    ensures !BeingDeleted(b.works, id)
  {
  }

  lemma CleanPasses(b: Board, ahead: map<Id, Strategy>, id: Id)
    requires CleanAt(b, id) && (id in ahead ==> id in b.ahead)
    ensures CleanAt(b.(ahead := ahead), id)
  {
    forall w | w in b.works && b.works[w].id == id ensures CleanWork(b.(ahead := ahead), w, id) {
      assert CleanWork(b, w, id);
    }
  }

  lemma CleanVisit(b: Board, other: Id, id: Id)
    requires CleanAt(b, id)
    ensures CleanAt(Faced(b, other), id)
  {
    if other in b.ahead && Restorer !in b.works {
      var passed := b.(ahead := Without(b.ahead, other));
      CleanPasses(b, passed.ahead, id);
      if other == id { AheadNotDeleted(b, id); }
      if Faced(b, other) != passed { CleanComes(passed, Faced(b, other), Restorer, id); }
    }
  }

  lemma CleanStep(b: Board, m: Move, id: Id)
    requires CleanAt(b, id) && Alone(b, m)
    ensures CleanAt(Next(b, m), id)
  {
    match m
    case Create(r, other, row) => CleanCreate(b, r, other, row, id);
    case Toggle(r, other) => CleanToggle(b, r, other, id);
    case Delete(r, other) => CleanDelete(b, r, other, id);
    case Visit(other) => CleanVisit(b, other, id);
    case Go(who, works) => CleanGo(b, who, works, id);
    case _ =>
  }

  /** Over every run of such requests a deleted strategy has no job, whatever fails. */
  lemma {:induction false} DeletedHaveNoJob(b: Board, moves: seq<Move>, id: Id)
    requires CleanAt(b, id) && AllAlone(b, moves)
    ensures NoOrphan(After(b, moves), id) && CleanAt(After(b, moves), id)
    decreases moves
  {
    if moves != [] {
      CleanStep(b, moves[0], id);
      DeletedHaveNoJob(Next(b, moves[0]), moves[1..], id);
    }
  }

  // ---- Runs that do ----

  /** The calls of one that nobody else falls between. */
  function Calls(b: Board, who: Who, works: bool, n: nat): Board
    decreases n
  {
    if n == 0 then b else Calls(Went(b, who, works), who, works, n - 1)
  }

  function Gos(who: Who, works: bool, n: nat): seq<Move> {
    if n == 0 then [] else [Go(who, works)] + Gos(who, works, n - 1)
  }

  /** They are a run like any other. */
  lemma {:induction false} CallsRun(b: Board, who: Who, works: bool, n: nat)
    ensures After(b, Gos(who, works, n)) == Calls(b, who, works, n)
    decreases n
  {
    if n > 0 { CallsRun(Went(b, who, works), who, works, n - 1); }
  }

  lemma TwoCalls(b: Board, who: Who, works: bool)
    ensures Calls(b, who, works, 2) == Went(Went(b, who, works), who, works)
  {
    assert Calls(Went(b, who, works), who, works, 1) == Calls(Went(Went(b, who, works), who, works), who, works, 0);
  }

  lemma ThreeCalls(b: Board, who: Who, works: bool)
    ensures Calls(b, who, works, 3) == Went(Went(Went(b, who, works), who, works), who, works)
  {
    TwoCalls(Went(b, who, works), who, works);
  }

  lemma Goes(b: Board, who: Who, works: bool, next: Work)
    requires who in b.works && NextPlace(b, b.works[who]) == Some(next) && !b.works[who].Dropping?
    ensures Went(b, who, works) ==
            b.(works := b.works[who := next], jobs := JobsNext(b.jobs, b.works[who], works),
               allAdded := b.allAdded && !(who == Restorer && AddFails(b.jobs, b.works[who], works)))
  {
  }

  lemma Places(b: Board, who: Who, works: bool)
    requires who in b.works && b.works[who].Placing? && b.works[who].id !in b.jobs && b.works[who].row.squareoff.At?
    ensures Went(b, who, works) ==
            b.(works := Without(b.works, who),
               jobs := if works then b.jobs[b.works[who].id := b.works[who].row.squareoff.clock] else b.jobs,
               allAdded := b.allAdded && (who == Restorer ==> works))
  {
  }

  lemma WithoutFresh<K, V>(m: map<K, V>, k: K, v: V)
    requires k !in m
    ensures Without(m[k := v], k) == m
  {
  }

  lemma SetAfterWithout<K, V>(m: map<K, V>, k: K, v: V)
    ensures Without(m, k)[k := v] == m[k := v] && Without(m[k := v], k) == Without(m, k)
  {
  }

  /** An add that nobody falls into, where there is no job. */
  lemma AddsAlone(b: Board, who: Who, works: bool)
    requires who in b.works && b.works[who].Adding? && b.works[who].id !in b.jobs && b.works[who].row.squareoff.At?
    ensures Calls(b, who, works, 2) ==
            b.(works := Without(b.works, who),
               jobs := if works then b.jobs[b.works[who].id := b.works[who].row.squareoff.clock] else b.jobs,
               allAdded := b.allAdded && (who == Restorer ==> works))
  {
    var w := b.works[who];
    var next := Placing(w.id, w.row, w.created);
    Goes(b, who, works, next);
    var b1 := b.(works := b.works[who := next]);
    Places(b1, who, works);
    SetAfterWithout(b.works, who, next);
    TwoCalls(b, who, works);
  }

  /** And where there is one. */
  lemma ReplacesAlone(b: Board, who: Who, works: bool)
    requires who in b.works && b.works[who].Adding? && b.works[who].id in b.jobs && b.works[who].row.squareoff.At?
    ensures Calls(b, who, works, 3) ==
            b.(works := Without(b.works, who),
               jobs := if works then b.jobs[b.works[who].id := b.works[who].row.squareoff.clock]
                       else Without(b.jobs, b.works[who].id),
               allAdded := b.allAdded && (who == Restorer ==> works))
  {
    var w := b.works[who];
    var there := Removing(w.id, w.row, w.created);
    Goes(b, who, works, there);
    RemovesAndPlaces(b.(works := b.works[who := there]), who, works);
    SetAfterWithout(b.works, who, there);
    ThreeCalls(b, who, works);
  }

  lemma RemovesAndPlaces(b: Board, who: Who, works: bool)
    requires who in b.works && b.works[who].Removing? && b.works[who].id in b.jobs && b.works[who].row.squareoff.At?
    ensures Went(Went(b, who, works), who, works) ==
            b.(works := Without(b.works, who),
               jobs := if works then b.jobs[b.works[who].id := b.works[who].row.squareoff.clock]
                       else Without(b.jobs, b.works[who].id),
               allAdded := b.allAdded && (who == Restorer ==> works))
  {
    var w := b.works[who];
    var next := Placing(w.id, w.row, w.created);
    Goes(b, who, works, next);
    Places(b.(works := b.works[who := next], jobs := Without(b.jobs, w.id)), who, works);
    SetAfterWithout(b.works, who, next);
    SetAfterWithout(b.jobs, w.id, w.row.squareoff.clock);
  }

  /** A deletion that nobody falls into. */
  lemma DeletesAlone(b: Board, r: nat, id: Id, stored: bool)
    requires Request(r) !in b.works && id in b.strategies
    ensures Calls(DeleteBegun(b, r, id), Request(r), stored, if id in b.jobs then 3 else 2) ==
            b.(strategies := if stored then Without(b.strategies, id) else b.strategies,
               jobs := if id in b.jobs then Without(b.jobs, id) else b.jobs)
  {
    var who, b1 := Request(r), DeleteBegun(b, r, id);
    if id in b.jobs {
      Goes(b1, who, stored, Found(id));
      var b2 := b1.(works := b1.works[who := Found(id)]);
      Goes(b2, who, stored, Dropping(id));
      var b3 := b2.(works := b2.works[who := Dropping(id)], jobs := Without(b.jobs, id));
      assert Without(b3.works, who) == b.works;
      ThreeCalls(b1, who, stored);
    } else {
      Goes(b1, who, stored, Dropping(id));
      var b2 := b1.(works := b1.works[who := Dropping(id)]);
      assert Without(b2.works, who) == b.works;
      TwoCalls(b1, who, stored);
    }
  }

  /** A deletion whose row could not be deleted loses the coverage exactly when the strategy was
      active and wanted its square-off. */
  lemma FailedDeleteExactly(b: Board, r: nat, id: Id)
    requires id in b.strategies && Covered(b, id) && Request(r) !in b.works
    ensures Covered(Calls(DeleteBegun(b, r, id), Request(r), false, if id in b.jobs then 3 else 2), id) <==>
            !Wanted(b, id)
  {
    DeletesAlone(b, r, id, false);
  }

  /** A server that has just started, over one strategy. */
  function Started(id: Id, row: Strategy): Board { Board(map[id := row], map[], map[], false, false, map[], true) }

  predicate Orphaned(b: Board, id: Id) { id in b.jobs && id !in b.strategies }

  /** The ways to an orphan are reached from a start: a deletion between a restore's reading and its
      visit, */
  lemma VisitAfterDelete(id: Id, row: Strategy)
    requires row.active && row.Wants() && row.squareoff.At?
    ensures var deleted := Calls(DeleteBegun(Begun(Started(id, row)), 0, id), Request(0), true, 2);
            Sound(Started(id, row)) && Orphaned(Calls(Faced(deleted, id), Restorer, true, 2), id)
  {
    var b := Begun(Started(id, row));
    DeletesAlone(b, 0, id, true);
    AddsAlone(Faced(b.(strategies := Without(b.strategies, id)), id), Restorer, true);
  }

  /** or an activation between a deletion's look for the job and the row's removal. */
  lemma AddInsideDelete(id: Id, row: Strategy)
    requires !row.active && row.Wants() && row.squareoff.At?
    ensures var looked := Went(DeleteBegun(Started(id, row), 1, id), Request(1), true);
            var on := Calls(Went(Toggled(looked, 0, id), Request(0), true), Request(0), true, 2);
            Sound(Started(id, row)) && Orphaned(Went(on, Request(1), true), id)
  {
    var b, on := Started(id, row), row.(active := true);
    Goes(DeleteBegun(b, 1, id), Request(1), true, Dropping(id));
    var b2 := b.(works := map[Request(1) := Dropping(id)]);
    assert Went(DeleteBegun(b, 1, id), Request(1), true) == b2;
    var b3 := Toggled(b2, 0, id);
    Goes(b3, Request(0), true, Adding(id, on, false));
    AddsAlone(Went(b3, Request(0), true), Request(0), true);
  }

  lemma CreatedGoesOn(b: Board, r: nat, id: Id, row: Strategy, works: bool)
    requires Request(r) !in b.works && id !in b.strategies && row.Wants()
    ensures Went(Created(b, r, id, row), Request(r), works) ==
            b.(strategies := b.strategies[id := row], works := b.works[Request(r) := Adding(id, row, true)])
  {
    var b1 := Created(b, r, id, row);
    assert b1.works[Request(r)] == Creating(id) && b1.strategies[id] == row;
    Goes(b1, Request(r), works, Adding(id, row, true));
    assert b1.works[Request(r) := Adding(id, row, true)] == b.works[Request(r) := Adding(id, row, true)];
  }

  /** A creation that nobody falls into, where there is no job. */
  lemma CreatesAlone(b: Board, r: nat, id: Id, row: Strategy)
    requires Request(r) !in b.works && id !in b.strategies && id !in b.jobs && row.Wants() && row.squareoff.At?
    ensures Calls(Went(Created(b, r, id, row), Request(r), true), Request(r), true, 2) ==
            b.(strategies := b.strategies[id := row], jobs := b.jobs[id := row.squareoff.clock])
  {
    CreatedGoesOn(b, r, id, row, true);
    AddsAlone(Went(Created(b, r, id, row), Request(r), true), Request(r), true);
    WithoutFresh(b.works, Request(r), Adding(id, row, true));
  }

  lemma CreationThenRestore(b: Board, id: Id, was: Strategy, row: Strategy)
    requires b.works == map[Restorer := Adding(id, was, false)] && id !in b.strategies && id !in b.jobs
    requires was.squareoff.At? && row.Wants() && row.squareoff.At? && was.squareoff != row.squareoff
    ensures var created := Calls(Went(Created(b, 1, id, row), Request(1), true), Request(1), true, 2);
            var b' := Calls(created, Restorer, true, 3);
            b'.works == map[] && !OnTime(b', id)
  {
    CreatesAlone(b, 1, id, row);
    RestoreMistimes(b.(strategies := b.strategies[id := row], jobs := b.jobs[id := row.squareoff.clock]), id, was);
  }

  lemma RestoreMistimes(b: Board, id: Id, was: Strategy)
    requires b.works == map[Restorer := Adding(id, was, false)] && id in b.jobs && was.squareoff.At?
    requires id in b.strategies && b.strategies[id].Wants() && was.squareoff != b.strategies[id].squareoff
    ensures Calls(b, Restorer, true, 3).works == map[] && !OnTime(Calls(b, Restorer, true, 3), id)
  {
    ReplacesAlone(b, Restorer, true);
    assert Without(b.works, Restorer) == map[];
  }

  /** A strategy is deleted while a restore still has it ahead, and another one is given its id: the
      restore finds no job, the creation adds one, and the restore replaces it, at the old time. */
  lemma ReusedIdMistimed(id: Id, was: Strategy, row: Strategy)
    requires was.active && was.Wants() && was.squareoff.At? && row.active && row.Wants() && row.squareoff.At?
    requires was.squareoff != row.squareoff
    ensures var deleted := Calls(DeleteBegun(Begun(Started(id, was)), 0, id), Request(0), true, 2);
            var created := Calls(Went(Created(Faced(deleted, id), 1, id, row), Request(1), true), Request(1), true, 2);
            var b := Calls(created, Restorer, true, 3);
            Sound(Started(id, was)) && b.works == map[] && !OnTime(b, id)
  {
    var b := Begun(Started(id, was));
    DeletesAlone(b, 0, id, true);
    var faced := Faced(b.(strategies := Without(b.strategies, id)), id);
    assert faced.strategies == map[] && faced.works == map[Restorer := Adding(id, was, false)];
    CreationThenRestore(faced, id, was, row);
  }

  // ---- One restore, uninterrupted ----

  /** A whole round of the loop that nobody falls into. */
  function Visited(b: Board, id: Id, adds: bool): Board {
    if id !in b.ahead || Restorer in b.works then b
    else
      var row, passed := b.ahead[id], b.(ahead := Without(b.ahead, id));
      if !row.Wants() || !row.active || id in b.jobs then passed
      else if adds && row.squareoff.At? then passed.(jobs := b.jobs[id := row.squareoff.clock])
      else passed.(allAdded := false)
  }

  lemma UnreadableAdd(b: Board, who: Who, works: bool)
    requires who in b.works && b.works[who].Adding? && !b.works[who].row.squareoff.At?
    ensures Calls(b, who, works, 2) == b.(works := Without(b.works, who), allAdded := b.allAdded && who != Restorer)
  {
    TwoCalls(b, who, works);
  }

  lemma VisitedIsItsCalls(b: Board, id: Id, adds: bool)
    requires Restorer !in b.works
    ensures Visited(b, id, adds) == Calls(Faced(b, id), Restorer, adds, 2)
  {
    var b1 := Faced(b, id);
    if Restorer !in b1.works {
      TwoCalls(b1, Restorer, adds);
    } else {
      WithoutFresh(b.works, Restorer, b1.works[Restorer]);
      if b1.works[Restorer].row.squareoff.At? {
        AddsAlone(b1, Restorer, adds);
      } else {
        UnreadableAdd(b1, Restorer, adds);
      }
    }
  }

  /** A round changes nothing of any other id, and never the strategies or the requests. */
  lemma VisitFrame(b: Board, id: Id, adds: bool, other: Id)
    requires other != id
    ensures var after := Visited(b, id, adds);
            (other in after.ahead <==> other in b.ahead) &&
            (other in b.ahead ==> after.ahead[other] == b.ahead[other]) &&
            (other in after.jobs <==> other in b.jobs) && (other in b.jobs ==> after.jobs[other] == b.jobs[other])
  {
  }

  /** What a round does to the id it is at. */
  lemma VisitHere(b: Board, id: Id, adds: bool)
    requires Restorer !in b.works
    ensures var after := Visited(b, id, adds);
            after.strategies == b.strategies && after.works == b.works && after.restored == b.restored &&
            after.restoring == b.restoring && id !in after.ahead &&
            if id in b.ahead && b.ahead[id].active && b.ahead[id].Wants() && id !in b.jobs then
              if adds && b.ahead[id].squareoff.At? then
                id in after.jobs && after.jobs[id] == b.ahead[id].squareoff.clock && after.allAdded == b.allAdded
              else id !in after.jobs && !after.allAdded
            else
              after.jobs == b.jobs && after.allAdded == b.allAdded
  {
  }

  function VisitAll(b: Board, order: seq<Id>, refused: set<Id>): Board
    decreases order
  {
    if order == [] then b else VisitAll(Visited(b, order[0], order[0] !in refused), order[1..], refused)
  }

  function Restored(b: Board, order: seq<Id>, refused: set<Id>): Board {
    Ended(VisitAll(Begun(b), order, refused))
  }

  predicate Distinct(order: seq<Id>) { forall i, j :: 0 <= i < j < |order| ==> order[i] != order[j] }

  /** The strategy is not one the restore has to add, or its add works. */
  predicate AddWorks(b: Board, id: Id, refused: set<Id>) {
    id in b.ahead && b.ahead[id].active && b.ahead[id].Wants() && id !in b.jobs ==>
      b.ahead[id].squareoff.At? && id !in refused
  }

  lemma VisitOther(b: Board, id: Id, adds: bool, other: Id, refused: set<Id>)
    requires other != id
    ensures AddWorks(Visited(b, id, adds), other, refused) == AddWorks(b, other, refused)
  {
  }

  lemma {:induction false} VisitAllAhead(b: Board, order: seq<Id>, refused: set<Id>)
    requires Restorer !in b.works
    ensures var after := VisitAll(b, order, refused);
            after.ahead.Keys == b.ahead.Keys - (set id | id in order) && after.restoring == b.restoring &&
            after.works == b.works
    decreases order
  {
    if order != [] {
      VisitAllAhead(Visited(b, order[0], order[0] !in refused), order[1..], refused);
      assert forall id :: id in order <==> id == order[0] || id in order[1..];
    }
  }

  predicate AllAddWork(b: Board, order: seq<Id>, refused: set<Id>) {
    forall id :: id in order ==> AddWorks(b, id, refused)
  }

  lemma AllAddWorkSplit(b: Board, order: seq<Id>, refused: set<Id>)
    requires Restorer !in b.works
    requires Distinct(order) && order != []
    ensures var next := Visited(b, order[0], order[0] !in refused);
            AllAddWork(b, order, refused) <==> AddWorks(b, order[0], refused) && AllAddWork(next, order[1..], refused)
  {
    var next := Visited(b, order[0], order[0] !in refused);
    forall id | id in order[1..] ensures AddWorks(next, id, refused) == AddWorks(b, id, refused) {
      VisitOther(b, order[0], order[0] !in refused, id, refused);
    }
    assert forall id :: id in order <==> id == order[0] || id in order[1..];
  }

  lemma {:induction false} VisitAllAdds(b: Board, order: seq<Id>, refused: set<Id>)
    requires Restorer !in b.works
    requires Distinct(order)
    ensures VisitAll(b, order, refused).allAdded <==> b.allAdded && AllAddWork(b, order, refused)
    decreases order
  {
    if order != [] {
      VisitHere(b, order[0], order[0] !in refused);
      AllAddWorkSplit(b, order, refused);
      VisitAllAdds(Visited(b, order[0], order[0] !in refused), order[1..], refused);
    }
  }

  /** A restore that reads every strategy completes exactly when every add it needs works. */
  lemma RestoreCompletesExactly(b: Board, order: seq<Id>, refused: set<Id>)
    requires Restorer !in b.works
    requires !b.restored && !b.restoring && Distinct(order) && b.strategies.Keys == (set id | id in order)
    ensures Restored(b, order, refused).restored <==>
            forall id :: id in b.strategies && b.strategies[id].active && b.strategies[id].Wants() && id !in b.jobs ==>
              b.strategies[id].squareoff.At? && id !in refused
  {
    VisitAllAdds(Begun(b), order, refused);
    RestoredShape(b, order, refused);
    assert forall id :: AddWorks(Begun(b), id, refused) <==>
                        (id in b.strategies && b.strategies[id].active && b.strategies[id].Wants() && id !in b.jobs ==>
                           b.strategies[id].squareoff.At? && id !in refused);
  }

  lemma RestoredShape(b: Board, order: seq<Id>, refused: set<Id>)
    requires Restorer !in b.works
    requires !b.restored && !b.restoring && Distinct(order) && b.strategies.Keys == (set id | id in order)
    ensures var visited := VisitAll(Begun(b), order, refused);
            Restored(b, order, refused).restored == visited.allAdded &&
            Restored(b, order, refused).jobs == visited.jobs
  {
    VisitAllAhead(Begun(b), order, refused);
    var after := VisitAll(Begun(b), order, refused);
    assert after.ahead.Keys == {};
    assert after.ahead == map[];
  }

  /** The strategies from a place in the order on are still ahead, as they are stored. */
  predicate AheadAsStored(b: Board, order: seq<Id>, from: nat) {
    forall k :: from <= k < |order| ==>
      order[k] in b.ahead && order[k] in b.strategies && b.ahead[order[k]] == b.strategies[order[k]]
  }

  lemma StillAhead(b: Board, order: seq<Id>, from: nat, adds: bool)
    requires Restorer !in b.works
    requires Distinct(order) && from < |order| && AheadAsStored(b, order, from)
    ensures AheadAsStored(Visited(b, order[from], adds), order, from + 1)
  {
  }

  lemma {:induction false} JobsStay(b: Board, order: seq<Id>, refused: set<Id>, id: Id)
    requires Restorer !in b.works
    requires id in b.jobs
    ensures id in VisitAll(b, order, refused).jobs
    decreases order
  {
    if order != [] {
      VisitHere(b, order[0], order[0] !in refused);
      if order[0] != id { VisitFrame(b, order[0], order[0] !in refused, id); }
      JobsStay(Visited(b, order[0], order[0] !in refused), order[1..], refused, id);
    }
  }

  lemma {:induction false} VisitAllCovers(b: Board, order: seq<Id>, refused: set<Id>, id: Id)
    requires Restorer !in b.works
    requires Distinct(order) && id in order && AddWorks(b, id, refused)
    requires id in b.ahead && b.ahead[id].active && b.ahead[id].Wants()
    ensures id in VisitAll(b, order, refused).jobs
    decreases order
  {
    var next := Visited(b, order[0], order[0] !in refused);
    VisitHere(b, order[0], order[0] !in refused);
    if order[0] == id {
      JobsStay(next, order[1..], refused, id);
    } else {
      VisitFrame(b, order[0], order[0] !in refused, id);
      VisitAllCovers(next, order[1..], refused, id);
    }
  }

  /** A restore that completes leaves every strategy covered. */
  lemma RestoredCovers(b: Board, order: seq<Id>, refused: set<Id>, id: Id)
    requires Restorer !in b.works
    requires !b.restored && !b.restoring && Distinct(order) && b.strategies.Keys == (set k | k in order)
    requires Restored(b, order, refused).restored && Wanted(b, id)
    ensures id in Restored(b, order, refused).jobs
  {
    RestoreCompletesExactly(b, order, refused);
    RestoredShape(b, order, refused);
    assert id in b.strategies.Keys;
    VisitAllCovers(Begun(b), order, refused, id);
  }

  lemma RestoredCoversAll(b: Board, order: seq<Id>, refused: set<Id>, after: Board)
    requires Restorer !in b.works
    requires !b.restored && !b.restoring && Distinct(order) && b.strategies.Keys == (set k | k in order)
    requires Restored(b, order, refused).restored
    requires after.strategies == b.strategies && after.jobs == Restored(b, order, refused).jobs
    ensures AllCovered(after)
  {
    forall id | Wanted(b, id) ensures id in after.jobs {
      RestoredCovers(b, order, refused, id);
    }
  }

  // ---- The scheduler, step by step ----

  const RESTORE_ATTEMPTS: nat := 30

  /** What one scheduled attempt meets: the strategies and jobs as other requests have left them, in
      the order the query lists them, whether one of those requests has restored them all, the adds
      that are refused, whether the strategies can be read, and whether another attempt could be
      booked. */
  datatype Attempt = Attempt(strategies: map<Id, Strategy>, jobs: map<Id, Clock>, restored: bool, order: seq<Id>,
                             refused: set<Id>, readable: bool, books: bool)
  {
    ghost predicate Lists() { Distinct(order) && strategies.Keys == (set id | id in order) }
  }

  /** _add_squareoff_job, with nobody in between. */
  function JobsAfterAdd(jobs: map<Id, Clock>, id: Id, time: Squareoff, adds: bool): map<Id, Clock> {
    if !time.At? then jobs else if adds then jobs[id := time.clock] else Without(jobs, id)
  }

  /** Its calls end a request that has got there, however many more are given to it. */
  lemma AddIs(b: Board, r: nat, adds: bool)
    requires Request(r) in b.works && b.works[Request(r)].Adding?
    ensures var w := b.works[Request(r)];
            Calls(b, Request(r), adds, 3) ==
            b.(works := Without(b.works, Request(r)), jobs := JobsAfterAdd(b.jobs, w.id, w.row.squareoff, adds))
  {
    var who, w := Request(r), b.works[Request(r)];
    ThreeCalls(b, who, adds);
    TwoCalls(b, who, adds);
    if !w.row.squareoff.At? {
      UnreadableAdd(b, who, adds);
    } else if w.id in b.jobs {
      ReplacesAlone(b, who, adds);
    } else {
      AddsAlone(b, who, adds);
      assert Without(b.jobs, w.id) == b.jobs;
    }
  }

  /** What a whole creation, activation or deletion does when nobody else is at work. */
  lemma CreationIs(b: Board, id: Id, row: Strategy, adds: bool)
    requires b.works == map[] && id !in b.strategies
    ensures Calls(Created(b, 0, id, row), Request(0), adds, 4) ==
            b.(strategies := b.strategies[id := row],
               jobs := if row.Wants() then JobsAfterAdd(b.jobs, id, row.squareoff, adds) else b.jobs)
  {
    if row.Wants() {
      CreatedGoesOn(b, 0, id, row, adds);
      AddIs(Went(Created(b, 0, id, row), Request(0), adds), 0, adds);
      WithoutFresh(b.works, Request(0), Adding(id, row, true));
    } else {
      Idle(Created(b, 0, id, row), Request(0), adds, 4);
    }
  }

  lemma {:induction false} Idle(b: Board, who: Who, works: bool, n: nat)
    requires who !in b.works
    ensures Calls(b, who, works, n) == b
    decreases n
  {
    if n > 0 { Idle(b, who, works, n - 1); }
  }

  /** An activation with nobody in between, from its look for a job on. */
  lemma SeekIs(b: Board, r: nat, adds: bool)
    requires Request(r) in b.works && b.works[Request(r)].Seeking?
    ensures var w := b.works[Request(r)];
            Calls(b, Request(r), adds, 4) ==
            b.(works := Without(b.works, Request(r)),
               jobs := if w.id in b.jobs then b.jobs else JobsAfterAdd(b.jobs, w.id, w.row.squareoff, adds))
  {
    var who, w := Request(r), b.works[Request(r)];
    if w.id in b.jobs {
      Idle(Went(b, who, adds), who, adds, 3);
    } else {
      Goes(b, who, adds, Adding(w.id, w.row, false));
      AddIs(b.(works := b.works[who := Adding(w.id, w.row, false)]), r, adds);
      SetAfterWithout(b.works, who, Adding(w.id, w.row, false));
    }
  }

  lemma ToggleIs(b: Board, id: Id, adds: bool)
    requires b.works == map[] && id in b.strategies
    ensures var row := b.strategies[id].(active := !b.strategies[id].active);
            Calls(Toggled(b, 0, id), Request(0), adds, 4) ==
            b.(strategies := b.strategies[id := row],
               jobs := if row.active && row.Wants() && id !in b.jobs then JobsAfterAdd(b.jobs, id, row.squareoff, adds)
                       else b.jobs)
  {
    var b1, row := Toggled(b, 0, id), b.strategies[id].(active := !b.strategies[id].active);
    if row.active && row.Wants() {
      SeekIs(b1, 0, adds);
      WithoutFresh(b.works, Request(0), Seeking(id, row));
    } else {
      Idle(b1, Request(0), adds, 4);
    }
  }

  lemma DeletionIs(b: Board, id: Id, stored: bool)
    requires b.works == map[] && id in b.strategies
    ensures Calls(DeleteBegun(b, 0, id), Request(0), stored, 3) ==
            b.(strategies := if stored then Without(b.strategies, id) else b.strategies, jobs := Without(b.jobs, id))
  {
    var b1 := DeleteBegun(b, 0, id);
    DeletesAlone(b, 0, id, stored);
    if id !in b.jobs {
      TwoCalls(b1, Request(0), stored);
      ThreeCalls(b1, Request(0), stored);
      assert Without(b.jobs, id) == b.jobs;
    }
  }

  lemma {:induction false} SoundCalls(b: Board, who: Who, n: nat)
    requires Sound(b)
    ensures Sound(Calls(b, who, true, n))
    decreases n
  {
    if n > 0 {
      SoundStep(b, Go(who, true));
      SoundCalls(Went(b, who, true), who, n - 1);
    }
  }

  /** What that leaves of a board nobody is at work on. */
  ghost predicate JobsKeep(before: Board, after: Board, id: Id) {
    && (forall k :: k != id && k in before.jobs ==> k in after.jobs && after.jobs[k] == before.jobs[k])
    && (forall k :: NoOrphan(before, k) ==> NoOrphan(after, k))
  }

  lemma CreationKeeps(b: Board, id: Id, row: Strategy, adds: bool)
    requires b.works == map[] && id !in b.strategies && id !in b.ahead
    ensures var b' := Calls(Created(b, 0, id, row), Request(0), adds, 4);
            JobsKeep(b, b', id) && (Sound(b) && adds && (row.Wants() ==> row.squareoff.At?) ==> Sound(b'))
  {
    CreationIs(b, id, row, adds);
    if Sound(b) && adds && (row.Wants() ==> row.squareoff.At?) {
      SoundStep(b, Create(0, id, row));
      SoundCalls(Created(b, 0, id, row), Request(0), 4);
    }
  }

  lemma ToggleKeeps(b: Board, id: Id, adds: bool)
    requires b.works == map[] && id in b.strategies
    ensures var b' := Calls(Toggled(b, 0, id), Request(0), adds, 4);
            && JobsKeep(b, b', id) && b'.strategies.Keys == b.strategies.Keys
            && b'.strategies[id].active != b.strategies[id].active && (id in b.jobs ==> b'.jobs == b.jobs)
            && (adds && Works(b, Toggle(0, id)) ==> Covered(b', id))
  {
    ToggleIs(b, id, adds);
  }

  lemma ToggleKeepsSound(b: Board, id: Id)
    requires Sound(b) && Works(b, Toggle(0, id))
    ensures Sound(Calls(Toggled(b, 0, id), Request(0), true, 4))
  {
    SoundStep(b, Toggle(0, id));
    SoundCalls(Toggled(b, 0, id), Request(0), 4);
  }

  lemma DeletionKeeps(b: Board, id: Id, stored: bool)
    requires b.works == map[] && id in b.strategies
    ensures var b' := Calls(DeleteBegun(b, 0, id), Request(0), stored, 3);
            JobsKeep(b, b', id) && id !in b'.jobs && (Sound(b) && stored ==> Sound(b'))
  {
    DeletionIs(b, id, stored);
    if Sound(b) && stored {
      SoundStep(b, Delete(0, id));
      SoundCalls(DeleteBegun(b, 0, id), Request(0), 3);
    }
  }

  class Scheduler {
    var strategies: map<Id, Strategy>
    var jobs: map<Id, Clock>
    var restored: bool

    constructor (stored: map<Id, Strategy>)
      ensures strategies == stored && jobs == map[] && !restored && Sound(State())
    {
      strategies, jobs, restored := stored, map[], false;
    }

    function State(): Board
      reads this
    {
      Board(strategies, jobs, map[], restored, false, map[], true)
    }

    method AddSquareoffJob(id: Id, time: Squareoff, adds: bool) returns (ok: bool)
      modifies this`jobs
      ensures jobs == JobsAfterAdd(old(jobs), id, time, adds)
      ensures ok == (time.At? && adds)
    {
      if !time.At? { return false; }
      if id in jobs {
        jobs := Without(jobs, id);
      }
      if !adds { return false; }
      jobs := jobs[id := time.clock];
      return true;
    }

    /** new_strategy(), for the id the store gives the new row. */
    method CreateStrategy(id: Id, intraday: bool, start: string, end: string, squareoff: string, adds: bool)
      requires id !in strategies
      modifies this
      ensures match NewRow(intraday, start, end, squareoff)
              case Some(row) => State() == Calls(Created(old(State()), 0, id, row), Request(0), adds, 4)
              case None => State() == old(State())
      ensures Sound(old(State())) && adds ==> Sound(State())
      ensures JobsKeep(old(State()), State(), id)
      ensures adds && id in strategies && intraday ==> id in jobs && SquareoffOf(squareoff) == At(jobs[id])
    {
      if intraday && ValidateTimes(start, end, squareoff) != Valid { return; }
      var row := Strategy(true, intraday, if intraday then SquareoffOf(squareoff) else Missing);
      NewRowReadable(intraday, start, end, squareoff);
      ghost var b := State();
      ghost var b' := Calls(Created(b, 0, id, row), Request(0), adds, 4);
      CreationIs(b, id, row, adds);
      strategies := strategies[id := row];
      if row.Wants() {
        var _ := AddSquareoffJob(id, row.squareoff, adds);
      }
      assert State() == b';
      CreationKeeps(b, id, row, adds);
    }

    method ToggleStrategy(id: Id, adds: bool)
      modifies this
      ensures State() == Calls(Toggled(old(State()), 0, id), Request(0), adds, 4)
      ensures JobsKeep(old(State()), State(), id) && strategies.Keys == old(strategies).Keys
      ensures id in strategies ==> strategies[id].active != old(strategies)[id].active
      ensures id in old(jobs) ==> jobs == old(jobs)
      ensures adds && Works(old(State()), Toggle(0, id)) ==>
                Covered(State(), id) && (Sound(old(State())) ==> Sound(State()))
    {
      ghost var b := State();
      if id !in strategies {
        Idle(b, Request(0), adds, 4);
        return;
      }
      ghost var b' := Calls(Toggled(b, 0, id), Request(0), adds, 4);
      ToggleIs(b, id, adds);
      var row := strategies[id].(active := !strategies[id].active);
      strategies := strategies[id := row];
      if row.active && row.Wants() && id !in jobs {
        var _ := AddSquareoffJob(id, row.squareoff, adds);
      }
      assert State() == b';
      ToggleKeeps(b, id, adds);
      if Sound(b) && adds && Works(b, Toggle(0, id)) { ToggleKeepsSound(b, id); }
    }

    method DeleteStrategy(id: Id, stored: bool)
      modifies this
      ensures State() == Calls(DeleteBegun(old(State()), 0, id), Request(0), stored, 3)
      ensures JobsKeep(old(State()), State(), id)
      ensures id in old(strategies) ==> id !in jobs
      ensures strategies == if stored then Without(old(strategies), id) else old(strategies)
      ensures Sound(old(State())) && stored ==> Sound(State())
    {
      ghost var b := State();
      if id !in strategies {
        Idle(b, Request(0), stored, 3);
        assert Without(strategies, id) == strategies;
        return;
      }
      ghost var b' := Calls(DeleteBegun(b, 0, id), Request(0), stored, 3);
      DeletionIs(b, id, stored);
      if id in jobs {
        jobs := Without(jobs, id);
      }
      if stored {
        strategies := Without(strategies, id);
      }
      assert Without(b.jobs, id) == jobs;
      assert State() == b';
      DeletionKeeps(b, id, stored);
    }

    /** One round of the restore's loop. */
    method RestoreOne(ghost board: Board, id: Id, row: Strategy, adds: bool) returns (worked: bool)
      requires board.jobs == jobs && id in board.ahead && board.ahead[id] == row && Restorer !in board.works
      modifies this`jobs
      ensures jobs == Visited(board, id, adds).jobs
      ensures Visited(board, id, adds).allAdded == (board.allAdded && worked)
    {
      if !row.Wants() || !row.active || id in jobs { return true; }
      worked := AddSquareoffJob(id, row.squareoff, adds);
      assert !worked && row.squareoff.At? ==> jobs == Without(board.jobs, id) == board.jobs;
    }

    /** The restore's loop over the strategies it read. */
    method VisitStrategies(order: seq<Id>, refused: set<Id>) returns (allRegistered: bool)
      requires !restored && Distinct(order) && strategies.Keys == (set id | id in order)
      modifies this`jobs
      ensures jobs == VisitAll(Begun(old(State())), order, refused).jobs
      ensures allRegistered == VisitAll(Begun(old(State())), order, refused).allAdded
    {
      ghost var begun := Begun(State());
      ghost var board := begun;
      allRegistered := true;
      var i := 0;
      while i < |order|
        invariant i <= |order|
        invariant board.jobs == jobs && board.allAdded == allRegistered && board.works == map[]
        invariant AheadAsStored(board, order, i) && board.strategies == strategies
        invariant VisitAll(board, order[i..], refused) == VisitAll(begun, order, refused)
      {
        var id := order[i];
        var worked := RestoreOne(board, id, strategies[id], id !in refused);
        allRegistered := allRegistered && worked;
        StillAhead(board, order, i, id !in refused);
        VisitHere(board, id, id !in refused);
        assert order[i..][1..] == order[i + 1..];
        board := Visited(board, id, id !in refused);
        i := i + 1;
      }
    }

    /** restore_squareoff_jobs, over the order the query lists the strategies in; the adds of
        some of them are refused. */
    method RestoreSquareoffJobs(order: seq<Id>, refused: set<Id>, readable: bool) returns (done: bool)
      requires Distinct(order) && strategies.Keys == (set id | id in order)
      modifies this
      ensures done == restored
      ensures strategies == old(strategies)
      ensures old(restored) || !readable ==> State() == old(State())
      ensures !old(restored) && readable ==>
                restored == Restored(old(State()), order, refused).restored &&
                jobs == Restored(old(State()), order, refused).jobs
      ensures !old(restored) && restored ==> AllCovered(State())
    {
      if restored { return true; }
      if !readable { return false; }
      ghost var before := State();
      done := VisitStrategies(order, refused);
      RestoredShape(before, order, refused);
      restored := done;
      if restored {
        RestoredCoversAll(before, order, refused, State());
      }
    }

    /** The chain of scheduled attempts, with other requests between them: it makes them until the
        square-offs are restored or the next cannot be booked, thirty at most, and if its last
        attempt restored them, every strategy is covered. */
    method RetryChain(attempts: seq<Attempt>) returns (made: nat)
      requires |attempts| >= 30 && forall a :: a in attempts ==> a.Lists()
      modifies this
      ensures 1 <= made <= 30 && strategies == attempts[made - 1].strategies
      ensures forall k :: 0 <= k < made - 1 ==> attempts[k].books && !attempts[k].restored
      ensures made < 30 ==> restored || !attempts[made - 1].books
      ensures restored && !old(restored) && !attempts[made - 1].restored ==> AllCovered(State())
    {
      made := 1;
      var done := Try(attempts[0]);
      while !done && made < RESTORE_ATTEMPTS && attempts[made - 1].books
        invariant 1 <= made <= RESTORE_ATTEMPTS && done == restored && strategies == attempts[made - 1].strategies
        invariant forall k :: 0 <= k < made - 1 ==> attempts[k].books && !attempts[k].restored
        invariant attempts[made - 1].restored ==> restored
        invariant restored && !old(restored) && !attempts[made - 1].restored ==> AllCovered(State())
      {
        done := Try(attempts[made]);
        made := made + 1;
      }
    }

    /** One attempt, after what other requests have done meanwhile. */
    method Try(a: Attempt) returns (done: bool)
      requires a.Lists()
      modifies this
      ensures done == restored && strategies == a.strategies && (a.restored ==> restored)
      ensures restored && !old(restored) && !a.restored ==> AllCovered(State())
    {
      strategies, jobs, restored := a.strategies, a.jobs, restored || a.restored;
      done := RestoreSquareoffJobs(a.order, a.refused, a.readable);
    }
  }
}
