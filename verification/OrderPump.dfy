/** The Chartink order pump (blueprints/chartink.py, process_orders): two FIFO queues, smart
    orders first, and a sliding window of the last accepted regular orders. The clock reading
    and what the broker does with an order are the inputs of each turn of the loop. */
module OrderPump {
  import opened Wrappers

  datatype Item = Order(id: nat) | Pill

  datatype Outcome = Accepted | Rejected | Raised

  /** One turn's inputs: what time() reads, and how an order placed in it fares. */
  datatype Tick = Tick(now: real, outcome: Outcome)

  datatype Event = Smart(id: nat) | Regular(id: nat, stamp: real, accepted: bool) | Wait | Stopped | Idle

  datatype Pump = Pump(smart: seq<Item>, regular: seq<Item>, stamps: seq<real>, running: bool)

  datatype Op = Queue(smartOrder: bool, item: Item) | Turn(tick: Tick)

  const LIMIT: nat := 10
  const WINDOW: real := 1.0

  /** deque(maxlen=10): a full deque drops its oldest entry. */
  function Append(stamps: seq<real>, stamp: real): seq<real> {
    if |stamps| >= LIMIT then stamps[1..] + [stamp] else stamps + [stamp]
  }

  /** The stamps still inside the window. */
  function Recent(stamps: seq<real>, now: real): seq<real> {
    if stamps != [] && now - stamps[0] > WINDOW then Recent(stamps[1..], now) else stamps
  }

  /** What one turn of a running processor does. */
  function TurnOf(s: Pump, tick: Tick): (Pump, Event) {
    if s.smart != [] then
      var rest := s.(smart := s.smart[1..]);
      (match s.smart[0]
       case Pill => (rest.(running := false), Stopped)
       case Order(id) => (rest, Smart(id)))
    else
      var recent := s.(stamps := Recent(s.stamps, tick.now));
      if |recent.stamps| >= LIMIT || s.regular == [] then (recent, Wait)
      else
        var rest := recent.(regular := s.regular[1..]);
        match s.regular[0]
        case Pill => (rest.(running := false), Stopped)
        case Order(id) =>
          if tick.outcome == Accepted
          then (rest.(stamps := Append(recent.stamps, tick.now)), Regular(id, tick.now, true))
          else (rest, Regular(id, tick.now, false))
  }

  /** queue_order starts a processor when none runs; a turn needs one. */
  function Step(s: Pump, op: Op): (Pump, Event) {
    match op
    case Queue(true, item) => (s.(running := true, smart := s.smart + [item]), Idle)
    case Queue(false, item) => (s.(running := true, regular := s.regular + [item]), Idle)
    case Turn(tick) => if s.running then TurnOf(s, tick) else (s, Idle)
  }

  function Run(s: Pump, ops: seq<Op>): Pump
    decreases ops
  {
    if ops == [] then s else Run(Step(s, ops[0]).0, ops[1..])
  }

  function Events(s: Pump, ops: seq<Op>): seq<Event>
    decreases ops
  {
    if ops == [] then [] else [Step(s, ops[0]).1] + Events(Step(s, ops[0]).0, ops[1..])
  }

  // ---- Rate limit ----

  /** Told from the queues and the inputs alone: a turn took an order off the regular queue and it
      was accepted. */
  function Placed(s: Pump, op: Op): seq<real> {
    if op.Turn? && |Step(s, op).0.regular| < |s.regular| && s.regular[0].Order? && op.tick.outcome == Accepted
    then [op.tick.now] else []
  }

  /** When the regular orders of a run were accepted, oldest first. */
  function PlacedAlong(s: Pump, ops: seq<Op>): seq<real>
    decreases ops
  {
    if ops == [] then [] else Placed(s, ops[0]) + PlacedAlong(Step(s, ops[0]).0, ops[1..])
  }

  function ClockAfter(now: real, op: Op): real { if op.Turn? then op.tick.now else now }

  predicate ClockFrom(now: real, ops: seq<Op>)
    decreases ops
  {
    ops == [] || (now <= ClockAfter(now, ops[0]) && ClockFrom(ClockAfter(now, ops[0]), ops[1..]))
  }

  function LastClock(now: real, ops: seq<Op>): real
    decreases ops
  {
    if ops == [] then now else LastClock(ClockAfter(now, ops[0]), ops[1..])
  }

  /** A history in order, in which every eleven stamps in a row span more than the window. */
  predicate Spaced(history: seq<real>) {
    if history == [] then true
    else
      var last := |history| - 1;
      && Spaced(history[..last])
      && (last > 0 ==> history[last - 1] <= history[last])
      && (last >= LIMIT ==> history[last] - history[last - LIMIT] > WINDOW)
  }

  /** What that means for any two stamps. */
  lemma {:induction false} SpacedAt(history: seq<real>, i: nat, j: nat)
    requires Spaced(history) && i <= j < |history|
    ensures history[i] <= history[j]
    ensures j >= i + 10 ==> history[j] - history[i] > 1.0
  {
    var last := |history| - 1;
    if j < last {
      SpacedAt(history[..last], i, j);
    } else if i < last {
      SpacedAt(history[..last], i, last - 1);
      if last >= LIMIT { SpacedAt(history[..last], if i <= last - LIMIT then i else last - LIMIT, last - LIMIT); }
    }
  }

  /** The deque is the suffix of the whole history that is still inside the window. */
  predicate Windowed(deque: seq<real>, history: seq<real>, now: real) {
    && |deque| <= |history| && |deque| <= LIMIT
    && deque == history[|history| - |deque|..]
    && (|deque| < |history| ==> now - history[|history| - |deque| - 1] > WINDOW)
    && (history != [] ==> history[|history| - 1] <= now)
    && Spaced(history)
  }

  lemma {:induction false} RecentWindowed(deque: seq<real>, history: seq<real>, now: real)
    requires Windowed(deque, history, now)
    ensures Windowed(Recent(deque, now), history, now)
    ensures Recent(deque, now) != [] ==> now - Recent(deque, now)[0] <= WINDOW
    decreases |deque|
  {
    if deque != [] && now - deque[0] > WINDOW {
      RecentWindowed(deque[1..], history, now);
    }
  }

  /** Recording an order under the limit keeps the deque a suffix of the history, and its own
      bound evicts nothing. */
  lemma AppendWindowed(deque: seq<real>, history: seq<real>, now: real)
    requires Windowed(deque, history, now) && |deque| < LIMIT
    ensures Windowed(Append(deque, now), history + [now], now)
    ensures Append(deque, now) == deque + [now]
  {
    assert (history + [now])[..|history|] == history;
    if |history| >= LIMIT {
      SpacedAt(history, |history| - LIMIT, |history| - |deque| - 1);
    }
  }

  /** The deque keeps the last ten stamps. */
  lemma AppendKeepsTen(stamps: seq<real>, stamp: real)
    requires |stamps| <= 10
    ensures var all := stamps + [stamp]; Append(stamps, stamp) == if |all| <= 10 then all else all[|all| - 10..]
  {
  }

  /** An order put goes to the back of its own queue and a processor runs then; one stops only when
      the item it takes is a pill, and without one nothing is taken. */
  lemma ProcessorRuns(s: Pump, op: Op)
    ensures var s' := Step(s, op).0;
            match op
            case Queue(smartOrder, item) =>
              s' == Pump(if smartOrder then s.smart + [item] else s.smart,
                         if smartOrder then s.regular else s.regular + [item], s.stamps, true)
            case Turn(tick) =>
              var taken := s.running && |s'.smart| + |s'.regular| < |s.smart| + |s.regular|;
              && (s'.running <==> s.running && !(taken && (if s.smart != [] then s.smart else s.regular)[0].Pill?))
              && (!s.running ==> s' == s)
  {
  }

  /** What a turn says it did is what it did: it tells of a regular order exactly when it took one off
      the queue, of that one, at the time read, and of how it fared. */
  lemma EventTells(s: Pump, tick: Tick)
    ensures var (s', event) := TurnOf(s, tick);
            && (event.Regular? <==> |s'.regular| < |s.regular| && s.regular[0].Order?)
            && (event.Regular? ==> s.regular[0] == Order(event.id) && event.stamp == tick.now &&
                                   (event.accepted <==> tick.outcome == Accepted))
            && (event.Wait? <==> s'.smart == s.smart && s'.regular == s.regular)
            && (event.Smart? <==> s.smart != [] && s.smart[0].Order?)
            && (event.Smart? ==> s.smart[0] == Order(event.id))
  {
  }

  /** What a turn does to the deque: it records an accepted regular order, at most drops what
      left the window otherwise. */
  lemma TurnStamps(s: Pump, tick: Tick)
    requires s.running
    ensures var s' := TurnOf(s, tick).0;
            if Placed(s, Turn(tick)) != [] then
              |Recent(s.stamps, tick.now)| < LIMIT && s'.stamps == Append(Recent(s.stamps, tick.now), tick.now)
            else s'.stamps == Recent(s.stamps, tick.now) || s'.stamps == s.stamps
  {
    assert Step(s, Turn(tick)) == TurnOf(s, tick);
  }

  lemma TurnWindowed(s: Pump, history: seq<real>, longer: seq<real>, now: real, tick: Tick)
    requires s.running && Windowed(s.stamps, history, now) && now <= tick.now
    requires longer == history + Placed(s, Turn(tick))
    ensures Windowed(TurnOf(s, tick).0.stamps, longer, tick.now)
  {
    TurnStamps(s, tick);
    DequeStep(s.stamps, TurnOf(s, tick).0.stamps, history, now, tick.now, Placed(s, Turn(tick)) != []);
    if Placed(s, Turn(tick)) == [] { assert longer == history; }
  }

  /** Whatever history a deque was the window of, it is the window of the history this turn leaves. */
  ghost predicate WindowOn(s: Pump, tick: Tick, after: seq<real>) {
    forall now: real, history: seq<real> | now <= tick.now && Windowed(s.stamps, history, now) ::
      Windowed(after, history + Placed(s, Turn(tick)), tick.now)
  }

  lemma TurnWindowOn(s: Pump, tick: Tick)
    requires s.running
    ensures WindowOn(s, tick, TurnOf(s, tick).0.stamps)
  {
    forall now: real, history: seq<real> | now <= tick.now && Windowed(s.stamps, history, now)
      ensures Windowed(TurnOf(s, tick).0.stamps, history + Placed(s, Turn(tick)), tick.now)
    {
      TurnWindowed(s, history, history + Placed(s, Turn(tick)), now, tick);
    }
  }

  lemma DequeStep(before: seq<real>, after: seq<real>, history: seq<real>, now: real, at: real, placed: bool)
    requires Windowed(before, history, now) && now <= at
    requires if placed then |Recent(before, at)| < LIMIT && after == Append(Recent(before, at), at)
             else after == Recent(before, at) || after == before
    ensures Windowed(after, if placed then history + [at] else history, at)
  {
    WindowedLater(before, history, now, at);
    RecentWindowed(before, history, at);
    if placed { AppendWindowed(Recent(before, at), history, at); }
  }

  lemma WindowedLater(deque: seq<real>, history: seq<real>, now: real, later: real)
    requires Windowed(deque, history, now) && now <= later
    ensures Windowed(deque, history, later)
  {
  }

  lemma StepWindowed(s: Pump, history: seq<real>, longer: seq<real>, now: real, op: Op)
    requires Windowed(s.stamps, history, now) && now <= ClockAfter(now, op)
    requires longer == history + Placed(s, op)
    ensures Windowed(Step(s, op).0.stamps, longer, ClockAfter(now, op))
  {
    if op.Turn? && s.running {
      assert Step(s, op) == TurnOf(s, op.tick) && ClockAfter(now, op) == op.tick.now;
      TurnWindowed(s, history, longer, now, op.tick);
    } else {
      assert Placed(s, op) == [] && longer == history && Step(s, op).0.stamps == s.stamps;
      WindowedLater(s.stamps, history, now, ClockAfter(now, op));
    }
  }

  /** The history a run leaves, told turn by turn. */
  function History(s: Pump, history: seq<real>, ops: seq<Op>): seq<real>
    decreases ops
  {
    if ops == [] then history
    else History(Step(s, ops[0]).0, history + Placed(s, ops[0]), ops[1..])
  }

  lemma {:induction false} HistoryIsPlaced(s: Pump, history: seq<real>, ops: seq<Op>)
    ensures History(s, history, ops) == history + PlacedAlong(s, ops)
    decreases ops
  {
    if ops == [] {
      assert history + [] == history;
    } else {
      var s' := Step(s, ops[0]).0;
      HistoryIsPlaced(s', history + Placed(s, ops[0]), ops[1..]);
      Assoc(history, Placed(s, ops[0]), PlacedAlong(s', ops[1..]));
    }
  }

  /** What every step keeps of the deque, the history and the clock, every run keeps. */
  lemma {:induction false} KeptAlong(kept: (seq<real>, seq<real>, real) -> bool, s: Pump, history: seq<real>, now: real,
                                     ops: seq<Op>)
    requires forall p: Pump, h, n, op ::
               kept(p.stamps, h, n) && n <= ClockAfter(n, op) ==>
                 kept(Step(p, op).0.stamps, h + Placed(p, op), ClockAfter(n, op))
    requires kept(s.stamps, history, now) && ClockFrom(now, ops)
    ensures kept(Run(s, ops).stamps, History(s, history, ops), LastClock(now, ops))
    decreases ops
  {
    if ops != [] {
      KeptAlong(kept, Step(s, ops[0]).0, history + Placed(s, ops[0]), ClockAfter(now, ops[0]), ops[1..]);
    }
  }

  lemma WindowKept(s: Pump, history: seq<real>, now: real, ops: seq<Op>)
    requires Windowed(s.stamps, history, now) && ClockFrom(now, ops)
    ensures Windowed(Run(s, ops).stamps, History(s, history, ops), LastClock(now, ops))
  {
    forall p: Pump, h, n, op | Windowed(p.stamps, h, n) && n <= ClockAfter(n, op)
      ensures Windowed(Step(p, op).0.stamps, h + Placed(p, op), ClockAfter(n, op))
    {
      StepWindowed(p, h, h + Placed(p, op), n, op);
    }
    KeptAlong(Windowed, s, history, now, ops);
  }

  /** Any eleven in a row span more than a second. */
  predicate TenASecond(placed: seq<real>) {
    forall i, j :: 0 <= i && i + 10 <= j < |placed| ==> placed[j] - placed[i] > 1.0
  }

  lemma SpacedTenASecond(placed: seq<real>)
    requires Spaced(placed)
    ensures TenASecond(placed)
  {
    forall i, j | 0 <= i && i + 10 <= j < |placed| ensures placed[j] - placed[i] > 1.0 {
      SpacedAt(placed, i, j);
    }
  }

  /** Over every run with a clock that never goes back, any eleven accepted regular orders in
      a row span more than a second, and the deque is what the window still holds of them. */
  lemma NeverMoreThanTenASecond(s: Pump, ops: seq<Op>, start: real)
    requires s.stamps == [] && ClockFrom(start, ops)
    ensures Windowed(Run(s, ops).stamps, PlacedAlong(s, ops), LastClock(start, ops))
    ensures TenASecond(PlacedAlong(s, ops))
  {
    WindowKept(s, [], start, ops);
    HistoryIsPlaced(s, [], ops);
    assert [] + PlacedAlong(s, ops) == PlacedAlong(s, ops);
    SpacedTenASecond(PlacedAlong(s, ops));
  }

  // ---- Conservation ----

  function Orders(items: seq<Item>): seq<nat> {
    if items == [] then []
    else (if items[0].Order? then [items[0].id] else []) + Orders(items[1..])
  }

  lemma {:induction false} OrdersConcat(a: seq<Item>, b: seq<Item>)
    ensures Orders(a + b) == Orders(a) + Orders(b)
  {
    if a == [] {
      assert a + b == b;
    } else {
      var first := if a[0].Order? then [a[0].id] else [];
      assert (a + b)[1..] == a[1..] + b;
      OrdersConcat(a[1..], b);
      assert first + (Orders(a[1..]) + Orders(b)) == (first + Orders(a[1..])) + Orders(b);
    }
  }

  function Queued(ops: seq<Op>, smartOrders: bool): seq<Item> {
    if ops == [] then [] else QueuedBy(ops[0], smartOrders) + Queued(ops[1..], smartOrders)
  }

  function QueuedBy(op: Op, smartOrders: bool): seq<Item> {
    if op.Queue? && op.smartOrder == smartOrders then [op.item] else []
  }

  function Attempted(events: seq<Event>, smartOrders: bool): seq<nat> {
    if events == [] then [] else AttemptedIn(events[0], smartOrders) + Attempted(events[1..], smartOrders)
  }

  function AttemptedIn(event: Event, smartOrders: bool): seq<nat> {
    match event
    case Smart(id) => if smartOrders then [id] else []
    case Regular(id, _, _) => if smartOrders then [] else [id]
    case _ => []
  }

  function Pending(s: Pump, smartOrders: bool): seq<Item> { if smartOrders then s.smart else s.regular }

  lemma TurnConserves(s: Pump, tick: Tick, smartOrders: bool)
    ensures var (s', event) := TurnOf(s, tick);
            Orders(Pending(s, smartOrders)) == AttemptedIn(event, smartOrders) + Orders(Pending(s', smartOrders))
  {
    var before, after := Pending(s, smartOrders), Pending(TurnOf(s, tick).0, smartOrders);
    if after != before {
      assert before == [before[0]] + after;
      OrdersConcat([before[0]], after);
      assert [before[0]][1..] == [];
    }
  }

  lemma StepConserves(s: Pump, op: Op, smartOrders: bool)
    ensures var (s', event) := Step(s, op);
            Orders(Pending(s, smartOrders)) + Orders(QueuedBy(op, smartOrders)) ==
            AttemptedIn(event, smartOrders) + Orders(Pending(s', smartOrders))
  {
    if op.Queue? {
      OrdersConcat(Pending(s, smartOrders), QueuedBy(op, smartOrders));
    } else if s.running {
      TurnConserves(s, op.tick, smartOrders);
    }
  }

  /** Per queue and over every run: what was pending and what was put, in that order, is what
      was attempted followed by what still waits. Each order is attempted once, whether placing
      it was accepted, refused or raised. */
  lemma {:induction false} OrdersConserved(s: Pump, ops: seq<Op>, smartOrders: bool)
    ensures Orders(Pending(s, smartOrders)) + Orders(Queued(ops, smartOrders)) ==
            Attempted(Events(s, ops), smartOrders) + Orders(Pending(Run(s, ops), smartOrders))
    decreases ops
  {
    if ops != [] {
      var (s', event) := Step(s, ops[0]);
      var q1, q2 := QueuedBy(ops[0], smartOrders), Queued(ops[1..], smartOrders);
      StepConserves(s, ops[0], smartOrders);
      OrdersConserved(s', ops[1..], smartOrders);
      OrdersConcat(q1, q2);
      assert Events(s, ops)[1..] == Events(s', ops[1..]);
      Regroup(Orders(Pending(s, smartOrders)), Orders(q1), Orders(q2), AttemptedIn(event, smartOrders),
              Orders(Pending(s', smartOrders)), Attempted(Events(s', ops[1..]), smartOrders),
              Orders(Pending(Run(s', ops[1..]), smartOrders)));
    }
  }

  lemma Regroup<T>(p: seq<T>, q1: seq<T>, q2: seq<T>, a1: seq<T>, p1: seq<T>, a2: seq<T>, p2: seq<T>)
    requires p + q1 == a1 + p1 && p1 + q2 == a2 + p2
    ensures p + (q1 + q2) == (a1 + a2) + p2
  {
    assert p + (q1 + q2) == (p + q1) + q2;
    assert (a1 + p1) + q2 == a1 + (p1 + q2);
    assert a1 + (a2 + p2) == (a1 + a2) + p2;
  }

  /** A turn takes the front smart order whenever one waits, a regular one exactly when none does and
      fewer than ten were accepted in the last second, and never changes a queue otherwise. */
  lemma SmartOrdersFirst(s: Pump, tick: Tick)
    ensures var s' := TurnOf(s, tick).0;
            && s'.smart == (if s.smart == [] then [] else s.smart[1..])
            && s'.regular == (if s.smart == [] && s.regular != [] && |Recent(s.stamps, tick.now)| < 10
                              then s.regular[1..] else s.regular)
    ensures TurnOf(s, tick).1.Regular? ==>
              s.smart == [] && s.regular != [] && s.regular[0] == Order(TurnOf(s, tick).1.id)
  {
  }

  // ---- Draining ----

  /** How long the loop sleeps after a turn. */
  function SleepAfter(event: Event): real {
    match event
    case Smart(_) => 1.0
    case Wait => 0.1
    case _ => 0.0
  }

  /** The processor's loop, for as long as the clock is read and no pill ends it. */
  function Turns(s: Pump, ticks: seq<Tick>): Pump
    decreases ticks
  {
    if ticks == [] || !s.running then s else Turns(TurnOf(s, ticks[0]).0, ticks[1..])
  }

  /** Each turn starts no earlier than the last one's sleep ended. */
  predicate Advancing(s: Pump, clock: real, ticks: seq<Tick>)
    decreases ticks
  {
    if ticks == [] then true
    else
      var (s', event) := TurnOf(s, ticks[0]);
      clock <= ticks[0].now && Advancing(s', ticks[0].now + SleepAfter(event), ticks[1..])
  }

  /** When the smart orders of a run of turns were taken. */
  function SmartTimes(s: Pump, ticks: seq<Tick>): seq<real>
    decreases ticks
  {
    if ticks == [] || !s.running then []
    else (if s.smart != [] && s.smart[0].Order? then [ticks[0].now] else []) +
         SmartTimes(TurnOf(s, ticks[0]).0, ticks[1..])
  }

  /** Smart orders go out at most one a second: any two in a row are a second apart at least. */
  lemma {:induction false} SmartOneASecond(s: Pump, clock: real, ticks: seq<Tick>)
    requires Advancing(s, clock, ticks)
    ensures var times := SmartTimes(s, ticks);
            (times != [] ==> times[0] >= clock) && forall i :: 0 < i < |times| ==> times[i] - times[i - 1] >= 1.0
    decreases ticks
  {
    if ticks != [] && s.running {
      var (s', event) := TurnOf(s, ticks[0]);
      EventTells(s, ticks[0]);
      SmartOneASecond(s', ticks[0].now + SleepAfter(event), ticks[1..]);
    }
  }

  predicate NoPill(s: Pump) { Pill !in s.smart && Pill !in s.regular }

  /** Tenths of a second until the oldest stamp leaves the window, when the limit is reached. */
  function WaitLeft(stamps: seq<real>, clock: real): nat {
    if |stamps| < LIMIT || clock - stamps[0] > WINDOW then 0
    else
      var tenths := (10.0 * (WINDOW - (clock - stamps[0]))).Floor;
      assert tenths >= 0;
      1 + tenths
  }

  /** Turns until both queues are empty: one per smart order, and for a regular order its own
      plus at most eleven tenths of waiting for the window. */
  function WorkLeft(s: Pump, clock: real): nat {
    |s.smart| + 12 * |s.regular| + (if s.regular == [] then 0 else WaitLeft(s.stamps, clock))
  }

  predicate PastStamps(stamps: seq<real>, clock: real) {
    |stamps| <= LIMIT && forall i :: 0 <= i < |stamps| ==> stamps[i] <= clock
  }

  lemma {:induction false} RecentIsSuffix(stamps: seq<real>, now: real)
    ensures |Recent(stamps, now)| <= |stamps| && Recent(stamps, now) == stamps[|stamps| - |Recent(stamps, now)|..]
    ensures |Recent(stamps, now)| == |stamps| <==> stamps == [] || now - stamps[0] <= WINDOW
  {
    if stamps != [] && now - stamps[0] > WINDOW {
      RecentIsSuffix(stamps[1..], now);
    }
  }

  lemma WaitShrinks(stamps: seq<real>, clock: real, later: real)
    requires PastStamps(stamps, clock) && clock <= later
    ensures WaitLeft(stamps, later) <= WaitLeft(stamps, clock) <= 11
    ensures WaitLeft(stamps, clock) > 0 && later >= clock + 0.1 ==>
              WaitLeft(stamps, later) < WaitLeft(stamps, clock)
  {
  }

  lemma SmartTurnWorks(s: Pump, clock: real, tick: Tick)
    requires NoPill(s) && PastStamps(s.stamps, clock) && clock <= tick.now && s.smart != []
    ensures var (s', event) := TurnOf(s, tick);
            NoPill(s') && s'.running == s.running && PastStamps(s'.stamps, tick.now + SleepAfter(event)) &&
            WorkLeft(s', tick.now + SleepAfter(event)) < WorkLeft(s, clock)
  {
    assert s.smart[0] in s.smart;
    WaitShrinks(s.stamps, clock, tick.now + SleepAfter(TurnOf(s, tick).1));
  }

  /** A turn held back by the limit drops nothing and waits a tenth of a second. */
  lemma HeldTurnWorks(s: Pump, clock: real, tick: Tick)
    requires PastStamps(s.stamps, clock) && clock <= tick.now && s.smart == [] && s.regular != []
    requires |Recent(s.stamps, tick.now)| >= LIMIT
    ensures TurnOf(s, tick) == (s, Wait)
    ensures PastStamps(s.stamps, tick.now + 0.1) && WorkLeft(s, tick.now + 0.1) < WorkLeft(s, clock)
  {
    RecentIsSuffix(s.stamps, tick.now);
    WaitShrinks(s.stamps, clock, tick.now);
    WaitShrinks(s.stamps, tick.now, tick.now + 0.1);
  }

  lemma TakenTurnWorks(s: Pump, clock: real, tick: Tick)
    requires NoPill(s) && PastStamps(s.stamps, clock) && clock <= tick.now && s.smart == [] && s.regular != []
    requires |Recent(s.stamps, tick.now)| < LIMIT
    ensures var (s', event) := TurnOf(s, tick);
            NoPill(s') && s'.running == s.running && PastStamps(s'.stamps, tick.now) && SleepAfter(event) == 0.0 &&
            WorkLeft(s', tick.now) < WorkLeft(s, clock)
  {
    RecentIsSuffix(s.stamps, tick.now);
    assert s.regular[0] in s.regular;
    WaitShrinks(TurnOf(s, tick).0.stamps, tick.now, tick.now);
  }

  lemma RegularTurnWorks(s: Pump, clock: real, tick: Tick)
    requires NoPill(s) && PastStamps(s.stamps, clock) && clock <= tick.now && s.smart == [] && s.regular != []
    ensures var (s', event) := TurnOf(s, tick);
            NoPill(s') && s'.running == s.running && PastStamps(s'.stamps, tick.now + SleepAfter(event)) &&
            WorkLeft(s', tick.now + SleepAfter(event)) < WorkLeft(s, clock)
  {
    if |Recent(s.stamps, tick.now)| >= LIMIT { HeldTurnWorks(s, clock, tick); } else { TakenTurnWorks(s, clock, tick); }
  }

  /** Every turn of a processor that still has an order to take reduces the work left. */
  lemma TurnWorks(s: Pump, clock: real, tick: Tick)
    requires NoPill(s) && PastStamps(s.stamps, clock) && clock <= tick.now
    requires s.smart != [] || s.regular != []
    ensures var (s', event) := TurnOf(s, tick);
            NoPill(s') && s'.running == s.running && PastStamps(s'.stamps, tick.now + SleepAfter(event)) &&
            WorkLeft(s', tick.now + SleepAfter(event)) < WorkLeft(s, clock)
  {
    if s.smart != [] { SmartTurnWorks(s, clock, tick); } else { RegularTurnWorks(s, clock, tick); }
  }

  /** With no new arrivals and a clock that advances, both queues are empty after at most
      WorkLeft turns, however each placement fares. */
  lemma {:induction false} QueuesDrain(s: Pump, clock: real, ticks: seq<Tick>)
    requires s.running && NoPill(s) && PastStamps(s.stamps, clock) && Advancing(s, clock, ticks)
    requires |ticks| >= WorkLeft(s, clock)
    ensures Turns(s, ticks).smart == [] && Turns(s, ticks).regular == []
    decreases ticks
  {
    if s.smart == [] && s.regular == [] {
      StaysEmpty(s, ticks);
    } else if ticks != [] {
      TurnWorks(s, clock, ticks[0]);
      var (s', event) := TurnOf(s, ticks[0]);
      QueuesDrain(s', ticks[0].now + SleepAfter(event), ticks[1..]);
    }
  }

  lemma {:induction false} StaysEmpty(s: Pump, ticks: seq<Tick>)
    requires s.smart == [] && s.regular == []
    ensures Turns(s, ticks).smart == [] && Turns(s, ticks).regular == []
    decreases ticks
  {
    if ticks != [] {
      StaysEmpty(TurnOf(s, ticks[0]).0, ticks[1..]);
    }
  }

  // ---- The loop itself ----

  lemma {:induction false} QueuedSnoc(ops: seq<Op>, op: Op, smartOrders: bool)
    ensures Queued(ops + [op], smartOrders) == Queued(ops, smartOrders) + QueuedBy(op, smartOrders)
  {
    if ops == [] {
      assert ops + [op] == [op] && [op][1..] == [];
    } else {
      assert (ops + [op])[1..] == ops[1..] + [op];
      QueuedSnoc(ops[1..], op, smartOrders);
      Assoc(QueuedBy(ops[0], smartOrders), Queued(ops[1..], smartOrders), QueuedBy(op, smartOrders));
    }
  }

  lemma {:induction false} AttemptedSnoc(events: seq<Event>, event: Event, smartOrders: bool)
    ensures Attempted(events + [event], smartOrders) ==
            Attempted(events, smartOrders) + AttemptedIn(event, smartOrders)
  {
    if events == [] {
      assert events + [event] == [event] && [event][1..] == [];
    } else {
      assert (events + [event])[1..] == events[1..] + [event];
      AttemptedSnoc(events[1..], event, smartOrders);
      Assoc(AttemptedIn(events[0], smartOrders), Attempted(events[1..], smartOrders), AttemptedIn(event, smartOrders));
    }
  }

  /** What was put into a queue is what was attempted followed by what still waits. */
  predicate Accounted(s: Pump, put: seq<Op>, done: seq<Event>, smartOrders: bool) {
    Orders(Queued(put, smartOrders)) == Attempted(done, smartOrders) + Orders(Pending(s, smartOrders))
  }

  lemma PutAccounted(s: Pump, put: seq<Op>, done: seq<Event>, op: Op, smartOrders: bool)
    requires op.Queue? && Accounted(s, put, done, smartOrders)
    ensures Accounted(Step(s, op).0, put + [op], done, smartOrders)
  {
    QueuedSnoc(put, op, smartOrders);
    OrdersConcat(Queued(put, smartOrders), QueuedBy(op, smartOrders));
    OrdersConcat(Pending(s, smartOrders), QueuedBy(op, smartOrders));
    assert Pending(Step(s, op).0, smartOrders) == Pending(s, smartOrders) + QueuedBy(op, smartOrders);
    Assoc(Attempted(done, smartOrders), Orders(Pending(s, smartOrders)), Orders(QueuedBy(op, smartOrders)));
  }

  lemma TurnAccounted(s: Pump, put: seq<Op>, done: seq<Event>, tick: Tick, smartOrders: bool)
    requires s.running && Accounted(s, put, done, smartOrders)
    ensures Accounted(TurnOf(s, tick).0, put, done + [TurnOf(s, tick).1], smartOrders)
  {
    var (s', event) := TurnOf(s, tick);
    StepConserves(s, Turn(tick), smartOrders);
    AttemptedSnoc(done, event, smartOrders);
    assert Orders(Pending(s, smartOrders)) == AttemptedIn(event, smartOrders) + Orders(Pending(s', smartOrders));
    Assoc(Attempted(done, smartOrders), AttemptedIn(event, smartOrders), Orders(Pending(s', smartOrders)));
  }

  /** What one turn keeps of the accounts and the window, and that it records an order accepted. */
  ghost predicate TurnLaw(s: Pump, s': Pump, event: Event, tick: Tick, put: seq<Op>, done: seq<Event>) {
    && Accounted(s', put, done + [event], true) && Accounted(s', put, done + [event], false)
    && WindowOn(s, tick, s'.stamps)
    && (|s'.regular| < |s.regular| && s.regular[0].Order? && tick.outcome == Accepted ==>
          s'.stamps != [] && s'.stamps[|s'.stamps| - 1] == tick.now)
  }

  lemma TurnKeepsLaw(s: Pump, tick: Tick, put: seq<Op>, done: seq<Event>)
    requires s.running && Accounted(s, put, done, true) && Accounted(s, put, done, false)
    ensures TurnLaw(s, TurnOf(s, tick).0, TurnOf(s, tick).1, tick, put, done)
  {
    TurnWindowOn(s, tick);
    TurnStamps(s, tick);
    TurnAccounted(s, put, done, tick, true);
    TurnAccounted(s, put, done, tick, false);
  }

  class Processor {
    var smart: seq<Item>
    var regular: seq<Item>
    var lastRegularOrders: seq<real>
    var running: bool
    ghost var put: seq<Op>
    ghost var done: seq<Event>

    constructor ()
      ensures State() == Pump([], [], [], false) && put == [] && done == [] && Valid()
    {
      smart, regular, lastRegularOrders, running, put, done := [], [], [], false, [], [];
    }

    function State(): Pump
      reads this
    {
      Pump(smart, regular, lastRegularOrders, running)
    }

    /** Nothing put is lost, repeated or overtaken within its queue. */
    ghost predicate Valid()
      reads this
    {
      Accounted(State(), put, done, true) && Accounted(State(), put, done, false)
    }

    /** queue_order(): the order goes to the back of its queue, and a processor runs afterwards. */
    method QueueOrder(smartOrder: bool, item: Item)
      requires Valid()
      modifies this
      ensures Valid() && put == old(put) + [Queue(smartOrder, item)] && done == old(done) && running
      ensures State() == Step(old(State()), Queue(smartOrder, item)).0
    {
      PutAccounted(State(), put, done, Queue(smartOrder, item), true);
      PutAccounted(State(), put, done, Queue(smartOrder, item), false);
      running := true;
      if smartOrder {
        smart := smart + [item];
      } else {
        regular := regular + [item];
      }
      put := put + [Queue(smartOrder, item)];
    }

    method CleanUp(now: real)
      modifies this`lastRegularOrders
      ensures lastRegularOrders == Recent(old(lastRegularOrders), now)
    {
      while lastRegularOrders != [] && now - lastRegularOrders[0] > WINDOW
        invariant Recent(lastRegularOrders, now) == Recent(old(lastRegularOrders), now)
        decreases |lastRegularOrders|
      {
        lastRegularOrders := lastRegularOrders[1..];
      }
    }

    /** One round of the loop of a running processor. */
    method OneTurn(tick: Tick) returns (event: Event)
      requires Valid() && running
      modifies this
      ensures Valid() && put == old(put) && done == old(done) + [event]
      ensures (State(), event) == TurnOf(old(State()), tick)
      ensures TurnLaw(old(State()), State(), event, tick, put, old(done))
    {
      TurnKeepsLaw(State(), tick, put, done);
      event := TakeTurn(tick);
      done := done + [event];
    }

    method TakeTurn(tick: Tick) returns (event: Event)
      modifies this`smart, this`regular, this`lastRegularOrders, this`running
      ensures (State(), event) == TurnOf(old(State()), tick)
    {
      if smart != [] {
        var first := smart[0];
        smart := smart[1..];
        if first.Pill? {
          running := false;
          return Stopped;
        }
        return Smart(first.id);
      }
      CleanUp(tick.now);
      if |lastRegularOrders| < LIMIT && regular != [] {
        var first := regular[0];
        regular := regular[1..];
        if first.Pill? {
          running := false;
          return Stopped;
        }
        if tick.outcome == Accepted {
          lastRegularOrders := Append(lastRegularOrders, tick.now);
        }
        return Regular(first.id, tick.now, tick.outcome == Accepted);
      }
      return Wait;
    }

    /** process_orders, for as many turns as the clock is read: it ends before only on a pill. */
    method ProcessOrders(ticks: seq<Tick>) returns (turns: nat)
      requires Valid()
      modifies this
      ensures Valid() && put == old(put) && |done| == |old(done)| + turns
      ensures State() == Turns(old(State()), ticks)
      ensures turns <= |ticks| && (turns < |ticks| ==> !running)
    {
      turns := 0;
      while turns < |ticks| && running
        invariant turns <= |ticks| && Valid() && put == old(put) && |done| == |old(done)| + turns
        invariant Turns(State(), ticks[turns..]) == Turns(old(State()), ticks)
      {
        var _ := OneTurn(ticks[turns]);
        assert ticks[turns..][1..] == ticks[turns + 1..];
        turns := turns + 1;
      }
    }
  }
}
