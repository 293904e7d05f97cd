/** The slots long-lived responses hold (utils/stream_registry.py) and the agent routes that
    take and give them back (blueprints/agent.py, _with_stream_slot, _stream_response and the
    end of _record_stream). Requests interleave at every step; a streamed one has two release
    hooks, and either may come first or not at all. */
module StreamSlots {
  import opened Wrappers

  const MAX_KINDS: nat := 32
  const OVERFLOW := "_other"

  /** Where a request that was admitted is: still in the route's body, answered without a
      stream, or streaming. */
  datatype Phase = Working | Answered | Streaming(started: bool, ended: bool, closed: bool)

  datatype Request = Request(kind: string, released: bool, phase: Phase)

  /** The open counts, and every request admitted so far with its ticket. */
  datatype World = World(open: map<string, nat>, requests: seq<Request>)

  datatype Event =
    | Arrive(kind: string, limit: Option<nat>)
    | BodyRaises(r: nat)
    | BodyAnswers(r: nat)   // an error answer, or any response that is not streamed
    | BodyStreams(r: nat)
    | FirstChunk(r: nat)    // the server asks the generator for the first time
    | GeneratorEnds(r: nat) // finished, raised, or closed by a client that left midway
    | Close(r: nat)         // the response's close hooks

  const IDLE := World(map[], [])

  function Count(open: map<string, nat>, kind: string): nat { if kind in open then open[kind] else 0 }

  /** _bucket(). */
  function Bucket(open: map<string, nat>, kind: string): string {
    if kind in open || |open| < MAX_KINDS then kind else OVERFLOW
  }

  predicate Admits(open: map<string, nat>, kind: string, limit: Option<nat>) {
    limit.None? || Count(open, Bucket(open, kind)) < limit.value
  }

  /** The counts with one slot of a kind given back; the source's floor and default are kept. */
  function GivenBack(open: map<string, nat>, kind: string): map<string, nat> {
    var held := if kind in open then open[kind] else 1;
    open[kind := if held > 0 then held - 1 else 0]
  }

  /** StreamTicket.release(). */
  function Released(w: World, r: nat): World
    requires r < |w.requests|
  {
    var q := w.requests[r];
    if q.released then w else World(GivenBack(w.open, q.kind), w.requests[r := q.(released := true)])
  }

  function InPhase(w: World, r: nat, phase: Phase): World
    requires r < |w.requests|
  {
    w.(requests := w.requests[r := w.requests[r].(phase := phase)])
  }

  predicate Enabled(w: World, e: Event) {
    e.Arrive? ||
    (e.r < |w.requests| &&
     match e
     case BodyRaises(r) => w.requests[r].phase == Working
     case BodyAnswers(r) => w.requests[r].phase == Working
     case BodyStreams(r) => w.requests[r].phase == Working
     case FirstChunk(r) => w.requests[r].phase == Streaming(false, false, false)
     case GeneratorEnds(r) =>
       w.requests[r].phase.Streaming? && w.requests[r].phase.started && !w.requests[r].phase.ended
     case Close(r) => w.requests[r].phase.Streaming? && !w.requests[r].phase.closed
     case _ => true)
  }

  function Next(w: World, e: Event): World
    requires Enabled(w, e)
  {
    match e
    case Arrive(kind, limit) =>
      if !Admits(w.open, kind, limit) then w
      else
        var bucket := Bucket(w.open, kind);
        World(w.open[bucket := Count(w.open, bucket) + 1], w.requests + [Request(bucket, false, Working)])
    case BodyRaises(r) => InPhase(Released(w, r), r, Answered)
    case BodyAnswers(r) => InPhase(Released(w, r), r, Answered)
    case BodyStreams(r) => InPhase(w, r, Streaming(false, false, false))
    case FirstChunk(r) => InPhase(w, r, w.requests[r].phase.(started := true))
    case GeneratorEnds(r) => InPhase(Released(w, r), r, w.requests[r].phase.(ended := true))
    case Close(r) => InPhase(Released(w, r), r, w.requests[r].phase.(closed := true))
  }

  predicate Possible(w: World, events: seq<Event>)
    decreases events
  {
    events == [] || (Enabled(w, events[0]) && Possible(Next(w, events[0]), events[1..]))
  }

  function After(w: World, events: seq<Event>): World
    requires Possible(w, events)
    decreases events
  {
    if events == [] then w else After(Next(w, events[0]), events[1..])
  }

  // ---- What every interleaving keeps ----

  /** A request holds its slot until its body answers, its generator ends or its response
      closes, whichever is first. */
  predicate Holds(phase: Phase) { phase == Working || (phase.Streaming? && !phase.ended && !phase.closed) }

  function Holding(requests: seq<Request>, kind: string): nat {
    if requests == [] then 0
    else Holding(requests[..|requests| - 1], kind)
         + (if requests[|requests| - 1].kind == kind && Holds(requests[|requests| - 1].phase) then 1 else 0)
  }

  /** The counts are the slots held, kind by kind, and a ticket is released exactly when its
      request no longer holds a slot. */
  ghost predicate Conserved(w: World) {
    && (forall r :: 0 <= r < |w.requests| ==> (w.requests[r].released <==> !Holds(w.requests[r].phase)))
    && (forall kind :: Count(w.open, kind) == Holding(w.requests, kind))
  }

  lemma {:induction false} HoldingUpdate(requests: seq<Request>, r: nat, phase: Phase, released: bool, kind: string)
    requires r < |requests|
    ensures var changed := requests[r := Request(requests[r].kind, released, phase)];
            Holding(changed, kind)
              + (if requests[r].kind == kind && Holds(requests[r].phase) then 1 else 0)
            == Holding(requests, kind) + (if requests[r].kind == kind && Holds(phase) then 1 else 0)
  {
    var last := |requests| - 1;
    var changed := requests[r := Request(requests[r].kind, released, phase)];
    if r < last {
      HoldingUpdate(requests[..last], r, phase, released, kind);
      assert changed[..last] == requests[..last][r := Request(requests[r].kind, released, phase)];
    } else {
      assert changed[..last] == requests[..last];
    }
  }

  lemma {:induction false} SomeoneHolds(requests: seq<Request>, r: nat)
    requires r < |requests| && Holds(requests[r].phase)
    ensures Holding(requests, requests[r].kind) > 0
  {
    if r < |requests| - 1 {
      SomeoneHolds(requests[..|requests| - 1], r);
    }
  }

  lemma PhaseConserved(w: World, r: nat, phase: Phase)
    requires Conserved(w) && r < |w.requests| && (Holds(phase) <==> Holds(w.requests[r].phase))
    ensures Conserved(InPhase(w, r, phase))
  {
    forall kind ensures Holding(InPhase(w, r, phase).requests, kind) == Holding(w.requests, kind) {
      HoldingUpdate(w.requests, r, phase, w.requests[r].released, kind);
    }
  }

  /** The first release takes one slot off, every later one nothing; the source's floor and
      default never come into it. */
  lemma ReleaseConserved(w: World, r: nat, phase: Phase)
    requires Conserved(w) && r < |w.requests| && !Holds(phase)
    ensures Conserved(InPhase(Released(w, r), r, phase))
    ensures Count(Released(w, r).open, w.requests[r].kind) + (if Holds(w.requests[r].phase) then 1 else 0)
            == Count(w.open, w.requests[r].kind)
  {
    var w' := InPhase(Released(w, r), r, phase);
    var q := w.requests[r];
    if Holds(q.phase) {
      SomeoneHolds(w.requests, r);
      assert q.kind in w.open && w.open[q.kind] > 0;
    }
    assert w'.requests == w.requests[r := Request(q.kind, true, phase)];
    forall kind ensures Count(w'.open, kind) == Holding(w'.requests, kind) {
      HoldingUpdate(w.requests, r, phase, true, kind);
    }
  }

  lemma HoldingSnoc(requests: seq<Request>, q: Request, kind: string)
    ensures Holding(requests + [q], kind) ==
            Holding(requests, kind) + (if q.kind == kind && Holds(q.phase) then 1 else 0)
  {
  }

  lemma AdmitConserved(w: World, bucket: string)
    requires Conserved(w)
    ensures Conserved(World(w.open[bucket := Count(w.open, bucket) + 1],
                            w.requests + [Request(bucket, false, Working)]))
  {
    var open := w.open[bucket := Count(w.open, bucket) + 1];
    forall k ensures Count(open, k) == Holding(w.requests + [Request(bucket, false, Working)], k) {
      HoldingSnoc(w.requests, Request(bucket, false, Working), k);
      assert Count(w.open, k) == Holding(w.requests, k);
    }
  }

  lemma ConservedStep(w: World, e: Event)
    requires Conserved(w) && Enabled(w, e)
    ensures Conserved(Next(w, e))
  {
    match e
    case Arrive(kind, limit) => AdmitConserved(w, Bucket(w.open, kind));
    case BodyRaises(r) => ReleaseConserved(w, r, Answered);
    case BodyAnswers(r) => ReleaseConserved(w, r, Answered);
    case BodyStreams(r) => PhaseConserved(w, r, Streaming(false, false, false));
    case FirstChunk(r) => PhaseConserved(w, r, w.requests[r].phase.(started := true));
    case GeneratorEnds(r) => ReleaseConserved(w, r, w.requests[r].phase.(ended := true));
    case Close(r) => ReleaseConserved(w, r, w.requests[r].phase.(closed := true));
  }

  /** Over every interleaving of any number of requests the counts are the slots held. */
  lemma {:induction false} SlotsConserved(w: World, events: seq<Event>)
    requires Conserved(w) && Possible(w, events)
    ensures Conserved(After(w, events))
    decreases events
  {
    if events != [] {
      ConservedStep(w, events[0]);
      SlotsConserved(Next(w, events[0]), events[1..]);
    }
  }

  lemma IdleConserved()
    ensures Conserved(IDLE)
  {
  }

  /** Over for the server: answered, or closed with no generator left running. */
  predicate Over(q: Request) {
    q.phase == Answered || (q.phase.Streaming? && q.phase.closed && (q.phase.started ==> q.phase.ended))
  }

  lemma {:induction false} NobodyHolds(requests: seq<Request>, kind: string)
    requires forall r :: 0 <= r < |requests| ==> Over(requests[r])
    ensures Holding(requests, kind) == 0
  {
    if requests != [] {
      NobodyHolds(requests[..|requests| - 1], kind);
    }
  }

  /** However each request ended, once all are over every slot is back. */
  lemma EverySlotComesBack(events: seq<Event>, kind: string)
    requires Possible(IDLE, events)
    requires forall r :: 0 <= r < |After(IDLE, events).requests| ==> Over(After(IDLE, events).requests[r])
    ensures Count(After(IDLE, events).open, kind) == 0
  {
    IdleConserved();
    SlotsConserved(IDLE, events);
    NobodyHolds(After(IDLE, events).requests, kind);
  }

  predicate Limited(events: seq<Event>, kind: string, most: nat) {
    forall e :: e in events && e.Arrive? && e.kind == kind ==> e.limit.Some? && e.limit.value <= most
  }

  /** A kind always asked for with a limit never has more streams open than that. */
  lemma {:induction false} NeverOverTheLimit(w: World, events: seq<Event>, kind: string, most: nat)
    requires kind != OVERFLOW && Limited(events, kind, most)
    requires Conserved(w) && Possible(w, events) && Count(w.open, kind) <= most
    ensures Count(After(w, events).open, kind) <= most
    decreases events
  {
    if events != [] {
      var e := events[0];
      assert e in events;
      ConservedStep(w, e);
      if !e.Arrive? {
        ReleaseConserved(w, e.r, Answered);
      }
      NeverOverTheLimit(Next(w, e), events[1..], kind, most);
    }
  }

  /** A request is turned away exactly when its bucket holds as many slots as the limit: its
      own kind's slots, unless the table of kinds was full before the kind was first seen. */
  lemma RefusedExactly(w: World, kind: string, limit: Option<nat>)
    requires Conserved(w)
    ensures Next(w, Arrive(kind, limit)) == w <==>
            limit.Some? &&
            limit.value <= Holding(w.requests, if kind in w.open || |w.open| < 32 then kind else "_other")
  {
  }

  /** Giving a slot back takes one off its kind's count, never below zero, and off no other. */
  lemma GivenBackOnce(open: map<string, nat>, kind: string, other: string)
    ensures Count(GivenBack(open, kind), other) ==
            if other == kind && Count(open, kind) > 0 then Count(open, kind) - 1 else Count(open, other)
  {
  }

  /** Every ticket's kind is in the table, which holds at most MAX_KINDS kinds beside the
      overflow bucket. */
  ghost predicate Bounded(w: World) {
    && (forall r :: 0 <= r < |w.requests| ==> w.requests[r].kind in w.open)
    && (|w.open| <= MAX_KINDS || (OVERFLOW in w.open && |w.open| <= MAX_KINDS + 1))
  }

  /** A caller passing a new kind each time cannot grow the table without bound. */
  lemma {:induction false} TableStaysSmall(w: World, events: seq<Event>)
    requires Bounded(w) && Possible(w, events)
    ensures Bounded(After(w, events))
    decreases events
  {
    if events != [] {
      var e := events[0];
      assert e.Arrive? || (w.requests[e.r].kind in w.open && |Next(w, e).open| == |w.open|);
      TableStaysSmall(Next(w, e), events[1..]);
    }
  }

  // ---- The registry and the routes, step by step ----

  class StreamTicket {
    const kind: string
    var released: bool

    constructor (kind: string)
      ensures this.kind == kind && !released
    {
      this.kind, released := kind, false;
    }
  }

  /** How a route's body comes back. */
  datatype Body = Raised | Answer | Stream

  class StreamRegistry {
    var open: map<string, nat>

    constructor ()
      ensures open == map[]
    {
      open := map[];
    }

    method Admit(kind: string, limit: Option<nat>) returns (ticket: StreamTicket?)
      modifies this
      ensures ticket == null <==> !Admits(old(open), kind, limit)
      ensures ticket == null ==> open == old(open)
      ensures ticket != null ==> fresh(ticket) && !ticket.released && ticket.kind == Bucket(old(open), kind) &&
                                 open == old(open)[ticket.kind := Count(old(open), ticket.kind) + 1]
    {
      var bucket := Bucket(open, kind);
      if limit.Some? && Count(open, bucket) >= limit.value { return null; }
      open := open[bucket := Count(open, bucket) + 1];
      ticket := new StreamTicket(bucket);
    }

    method Release(ticket: StreamTicket)
      modifies this, ticket
      ensures ticket.released
      ensures open == if old(ticket.released) then old(open) else GivenBack(old(open), ticket.kind)
    {
      if ticket.released { return; }
      ticket.released := true;
      var held := if ticket.kind in open then open[ticket.kind] else 1;
      open := open[ticket.kind := if held > 0 then held - 1 else 0];
    }

    /** _with_stream_slot(): refused, or run with one slot more than before, which only a
        streaming body keeps. */
    method WithStreamSlot(kind: string, limit: Option<nat>, body: Body) returns (ticket: StreamTicket?)
      modifies this
      ensures ticket == null <==> !Admits(old(open), kind, limit)
      ensures ticket != null ==> fresh(ticket) && ticket.kind == Bucket(old(open), kind)
      ensures ticket != null ==> (ticket.released <==> body != Stream)
      ensures forall k :: Count(open, k) ==
                Count(old(open), k) + (if ticket != null && body == Stream && k == ticket.kind then 1 else 0)
    {
      ticket := Admit(kind, limit);
      if ticket != null && body != Stream {
        Release(ticket);
      }
    }

    /** The end of a streamed response: the generator's finally if it ever ran, and the close
        hook, in either order, give back one slot between them. */
    method EndStream(ticket: StreamTicket, started: bool, closeFirst: bool)
      requires !ticket.released && Count(open, ticket.kind) > 0
      modifies this, ticket
      ensures ticket.released
      ensures forall k :: Count(open, k) + (if k == ticket.kind then 1 else 0) == Count(old(open), k)
    {
      if closeFirst {
        Release(ticket);
      }
      if started {
        Release(ticket);
      }
      if !closeFirst {
        Release(ticket);
      }
    }
  }

  /** A whole turn, however it goes, leaves every count as it found it. */
  method WholeTurn(registry: StreamRegistry, kind: string, limit: Option<nat>, body: Body,
                   started: bool, closeFirst: bool)
    modifies registry
    ensures forall k :: Count(registry.open, k) == Count(old(registry.open), k)
  {
    var ticket := registry.WithStreamSlot(kind, limit, body);
    if ticket != null && body == Stream {
      registry.EndStream(ticket, started, closeFirst);
    }
  }
}
