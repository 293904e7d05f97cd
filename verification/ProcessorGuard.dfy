/** Who runs the Chartink order loop (blueprints/chartink.py, ensure_order_processor and
    queue_order), with callers and processors interleaving between their locked sections and
    queue operations. */
module ProcessorGuard {
  import opened OrderPump

  /** Where a live processor is: at the top of its loop, past a smart queue it saw empty, or
      out of the loop with the flag not yet reset. */
  datatype Phase = Looping | SawNoSmart | Leaving

  datatype Guard = Guard(running: bool, processors: map<nat, Phase>, callers: set<nat>,
                         smart: seq<Item>, regular: seq<Item>)

  datatype Move =
    | Ensure(caller: nat, thread: nat)           // the locked check, starting this thread if none runs
    | Put(caller: nat, smartOrder: bool, item: Item)
    | PollSmart(thread: nat)
    | PollRegular(thread: nat, limited: bool)    // whether the rate limit holds the queue back
    | Exit(thread: nat)                          // the locked reset

  const START := Guard(false, map[], {}, [], [])

  predicate Enabled(g: Guard, move: Move) {
    match move
    case Ensure(caller, thread) => caller !in g.callers && thread !in g.processors
    case Put(caller, _, _) => caller in g.callers
    case PollSmart(thread) => thread in g.processors && g.processors[thread] == Looping
    case PollRegular(thread, _) => thread in g.processors && g.processors[thread] == SawNoSmart
    case Exit(thread) => thread in g.processors && g.processors[thread] == Leaving
  }

  function Next(g: Guard, move: Move): Guard
    requires Enabled(g, move)
  {
    match move
    case Ensure(caller, thread) =>
      var waiting := g.(callers := g.callers + {caller});
      if g.running then waiting else waiting.(running := true, processors := g.processors[thread := Looping])
    case Put(caller, true, item) => g.(callers := g.callers - {caller}, smart := g.smart + [item])
    case Put(caller, false, item) => g.(callers := g.callers - {caller}, regular := g.regular + [item])
    case PollSmart(thread) =>
      if g.smart == [] then g.(processors := g.processors[thread := SawNoSmart])
      else g.(smart := g.smart[1..],
              processors := g.processors[thread := if g.smart[0].Pill? then Leaving else Looping])
    case PollRegular(thread, limited) =>
      if limited || g.regular == [] then g.(processors := g.processors[thread := Looping])
      else g.(regular := g.regular[1..],
              processors := g.processors[thread := if g.regular[0].Pill? then Leaving else Looping])
    case Exit(thread) => g.(running := false, processors := g.processors - {thread})
  }

  predicate Possible(g: Guard, moves: seq<Move>)
    decreases moves
  {
    moves == [] || (Enabled(g, moves[0]) && Possible(Next(g, moves[0]), moves[1..]))
  }

  function After(g: Guard, moves: seq<Move>): Guard
    requires Possible(g, moves)
    decreases moves
  {
    if moves == [] then g else After(Next(g, moves[0]), moves[1..])
  }

  /** Orders are put at the back and taken from the front, each queue by its own moves alone; a
      processor is on its way out exactly when what it took was a pill. */
  lemma QueuesMove(g: Guard, move: Move)
    requires Enabled(g, move)
    ensures var g' := Next(g, move);
            && g'.smart == (match move
                            case Put(_, true, item) => g.smart + [item]
                            case PollSmart(_) => if g.smart == [] then [] else g.smart[1..]
                            case _ => g.smart)
            && g'.regular == (match move
                              case Put(_, false, item) => g.regular + [item]
                              case PollRegular(_, limited) =>
                                if limited || g.regular == [] then g.regular else g.regular[1..]
                              case _ => g.regular)
            && (g'.running <==> move.Ensure? || (g.running && !move.Exit?))
            && (forall t :: t in g'.processors && g'.processors[t] == Leaving <==>
                  !(move.Exit? && move.thread == t) &&
                  ((t in g.processors && g.processors[t] == Leaving) ||
                   (move.PollSmart? && move.thread == t && g.smart != [] && g.smart[0].Pill?) ||
                   (move.PollRegular? && move.thread == t && !move.limited && g.regular != [] && g.regular[0].Pill?)))
  {
  }

  /** At most one processor is live, and the flag is set exactly while one has not reset it. */
  ghost predicate OneLive(g: Guard) {
    && (g.running <==> exists t :: t in g.processors)
    && forall t, u :: t in g.processors && u in g.processors ==> t == u
  }

  lemma {:induction false} AtMostOneProcessor(g: Guard, moves: seq<Move>)
    requires OneLive(g) && Possible(g, moves)
    ensures OneLive(After(g, moves))
    decreases moves
  {
    if moves != [] {
      var g' := Next(g, moves[0]);
      assert moves[0].Ensure? && !g.running ==> moves[0].thread in g'.processors;
      assert (moves[0].PollSmart? || moves[0].PollRegular?) ==> moves[0].thread in g'.processors;
      AtMostOneProcessor(g', moves[1..]);
    }
  }

  predicate NoPillPut(moves: seq<Move>) { forall m :: m in moves && m.Put? ==> m.item != Pill }

  /** Someone still serves the queues, and no pill can end it. */
  ghost predicate Served(g: Guard) {
    && Pill !in g.smart && Pill !in g.regular
    && (forall t :: t in g.processors ==> g.processors[t] != Leaving)
    && (g.callers != {} || g.smart != [] || g.regular != [] ==> g.running)
  }

  /** As long as no pill is put, every order that was put, and every caller past its check,
      has a live processor that is still in its loop. */
  lemma {:induction false} PutOrdersAreServed(g: Guard, moves: seq<Move>)
    requires OneLive(g) && Served(g) && Possible(g, moves) && NoPillPut(moves)
    ensures Served(After(g, moves))
    decreases moves
  {
    if moves != [] {
      assert moves[0] in moves;
      if g.smart != [] { assert g.smart[0] in g.smart; }
      if g.regular != [] { assert g.regular[0] in g.regular; }
      AtMostOneProcessor(g, [moves[0]]);
      assert After(g, [moves[0]]) == Next(g, moves[0]) by { assert [moves[0]][1..] == []; }
      PutOrdersAreServed(Next(g, moves[0]), moves[1..]);
    }
  }

  lemma StartIsServed()
    ensures OneLive(START) && Served(START)
  {
  }

  /** Orders wait and no processor is running. */
  predicate Stranded(g: Guard) { !g.running && (g.smart != [] || g.regular != []) }

  /** Orders come to wait without a processor exactly when a caller puts one after the processor
      it saw has reset the flag, or a processor leaves while some still wait. */
  lemma StrandedExactly(g: Guard, move: Move)
    requires Enabled(g, move) && OneLive(g) && !Stranded(g)
    ensures Stranded(Next(g, move)) <==>
            (move.Put? && !g.running) || (move.Exit? && (g.smart != [] || g.regular != []))
  {
  }

  /** The next caller's check always starts a processor for them. */
  lemma NextCallerServes(g: Guard, caller: nat, thread: nat)
    requires Enabled(g, Ensure(caller, thread)) && OneLive(g)
    ensures !Stranded(Next(g, Ensure(caller, thread))) && Next(g, Ensure(caller, thread)).processors != map[]
  {
    var g' := Next(g, Ensure(caller, thread));
    if g.running {
      var t :| t in g.processors;
      assert t in g'.processors;
    } else {
      assert thread in g'.processors;
    }
  }

  /** A processor leaves only after a pill, so without one neither happens. */
  lemma {:induction false} NeverStrandedWithoutAPill(moves: seq<Move>)
    requires Possible(START, moves) && NoPillPut(moves)
    ensures !Stranded(After(START, moves))
  {
    StartIsServed();
    PutOrdersAreServed(START, moves);
  }

  /** The other half, should anyone put a pill: a caller whose check saw the leaving processor
      puts its order after the flag is reset, and nobody takes it. */
  lemma PillStrandsAnOrder(pill: nat, caller: nat, thread: nat, other: nat)
    requires caller != pill && other != thread
    ensures var moves := [Ensure(pill, thread), Put(pill, true, Pill), PollSmart(thread), Ensure(caller, other),
                          Exit(thread), Put(caller, true, Order(7))];
            Possible(START, moves) &&
            After(START, moves) == Guard(false, map[], {}, [Order(7)], [])
  {
    var m1, m2, m3 := Ensure(pill, thread), Put(pill, true, Pill), PollSmart(thread);
    var m4, m5, m6 := Ensure(caller, other), Exit(thread), Put(caller, true, Order(7));
    var g1 := Next(START, m1);
    assert g1 == Guard(true, map[thread := Looping], {pill}, [], []);
    var g2 := Next(g1, m2);
    assert g2 == Guard(true, map[thread := Looping], {}, [Pill], []);
    var g3 := Next(g2, m3);
    assert g3 == Guard(true, map[thread := Leaving], {}, [], []);
    var g4 := Next(g3, m4);
    var g5 := Next(g4, m5);
    assert g5 == Guard(false, map[], {caller}, [], []);
    assert Next(g5, m6) == Guard(false, map[], {}, [Order(7)], []);
    Chain(START, m1, [m2, m3, m4, m5, m6]);
    Chain(g1, m2, [m3, m4, m5, m6]);
    Chain(g2, m3, [m4, m5, m6]);
    Chain(g3, m4, [m5, m6]);
    Chain(g4, m5, [m6]);
    Chain(g5, m6, []);
  }

  lemma Chain(g: Guard, move: Move, rest: seq<Move>)
    requires Enabled(g, move)
    ensures Possible(g, [move] + rest) <==> Possible(Next(g, move), rest)
    ensures Possible(g, [move] + rest) ==> After(g, [move] + rest) == After(Next(g, move), rest)
  {
  }

  // ---- Smart orders first, across the two polls ----

  predicate Of(move: Move, thread: nat) {
    (move.Ensure? || move.PollSmart? || move.PollRegular? || move.Exit?) && move.thread == thread
  }

  /** At this place the thread saw the smart queue empty, and it has done nothing since. */
  ghost predicate SawEmptyAt(g: Guard, moves: seq<Move>, thread: nat, j: nat) {
    && j < |moves| && moves[j] == PollSmart(thread) && (forall k :: j < k < |moves| ==> !Of(moves[k], thread))
    && Possible(g, moves[..j]) && After(g, moves[..j]).smart == []
  }

  lemma {:induction false} PossiblePrefix(g: Guard, moves: seq<Move>, move: Move)
    requires Possible(g, moves + [move])
    ensures Possible(g, moves) && Enabled(After(g, moves), move)
    ensures After(g, moves + [move]) == Next(After(g, moves), move)
    decreases moves
  {
    if moves == [] {
      assert moves + [move] == [move] && [move][1..] == [];
    } else {
      assert (moves + [move])[1..] == moves[1..] + [move] && (moves + [move])[0] == moves[0];
      PossiblePrefix(Next(g, moves[0]), moves[1..], move);
    }
  }

  lemma {:induction false} SawEmpty(g: Guard, moves: seq<Move>, thread: nat) returns (j: nat)
    requires Possible(g, moves) && (thread in g.processors ==> g.processors[thread] != SawNoSmart)
    requires thread in After(g, moves).processors && After(g, moves).processors[thread] == SawNoSmart
    ensures SawEmptyAt(g, moves, thread, j)
  {
    j := 0;
    if moves == [] {
      assert false;
    } else {
      var init, last := moves[..|moves| - 1], moves[|moves| - 1];
      assert moves == init + [last];
      PossiblePrefix(g, init, last);
      if last == PollSmart(thread) {
        j := |init|;
        assert moves[..j] == init;
      } else {
        j := SawEmpty(g, init, thread);
        assert moves[..j] == init[..j];
      }
    }
  }

  /** In every interleaving a regular order is polled only by a processor that saw the smart queue
      empty and has done nothing else since; an order put meanwhile has to wait its turn. */
  lemma RegularAfterSmartSeenEmpty(moves: seq<Move>, thread: nat, limited: bool) returns (j: nat)
    requires Possible(START, moves + [PollRegular(thread, limited)])
    ensures SawEmptyAt(START, moves, thread, j)
  {
    PossiblePrefix(START, moves, PollRegular(thread, limited));
    j := SawEmpty(START, moves, thread);
  }
}
