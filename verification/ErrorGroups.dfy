/** The grouping of logged errors by fingerprint (blueprints/admin.py, api_errors_groups): one pass
    over the window's entries updating a dictionary of groups, then the top of a stable sort. An
    entry's timestamp is a string or absent; the rest of it is kept as it came. */
module ErrorGroups {
  import opened Wrappers
  import opened Sorting

  datatype Entry = Entry(mark: string, ts: Option<string>, body: string)

  /** head is the entry whose level, logger and module the group shows. */
  datatype Group = Group(mark: string, count: nat, head: Entry, firstSeen: Option<string>, lastSeen: Option<string>,
                         sample: Entry)

  predicate Empty(ts: Option<string>) { ts.None? || ts.value == "" }

  function Fresh(e: Entry): Group { Group(e.mark, 1, e, e.ts, e.ts, e) }

  /** One more entry of a group that exists. */
  function Add(g: Group, e: Entry): Group {
    if e.ts.None? then g.(count := g.count + 1)
    else
      var first := if Empty(g.firstSeen) || StringLess(e.ts.value, g.firstSeen.value) then e.ts else g.firstSeen;
      var last := if Empty(g.lastSeen) || StringLess(g.lastSeen.value, e.ts.value) then e.ts else g.lastSeen;
      g.(count := g.count + 1, firstSeen := first, lastSeen := last,
         sample := if StringLe(last.value, e.ts.value) then e else g.sample)
  }

  /** The entries of one fingerprint, in file order. */
  function Of(entries: seq<Entry>, mark: string): seq<Entry> {
    if entries == [] then []
    else
      var before, e := Of(entries[..|entries| - 1], mark), entries[|entries| - 1];
      if e.mark == mark then before + [e] else before
  }

  function GroupOf(es: seq<Entry>): Group
    requires es != []
  {
    if |es| == 1 then Fresh(es[0]) else Add(GroupOf(es[..|es| - 1]), es[|es| - 1])
  }

  /** The fingerprints in the order in which they were first seen. */
  function Marks(entries: seq<Entry>): seq<string> {
    if entries == [] then []
    else
      var before, e := Marks(entries[..|entries| - 1]), entries[|entries| - 1];
      if e.mark in before then before else before + [e.mark]
  }

  lemma {:induction false} MarksAre(entries: seq<Entry>, mark: string)
    ensures mark in Marks(entries) <==> Of(entries, mark) != []
  {
    if entries != [] { MarksAre(entries[..|entries| - 1], mark); }
  }

  lemma {:induction false} SeenAt(entries: seq<Entry>, mark: string) returns (k: nat)
    requires mark in Marks(entries)
    ensures k < |entries| && entries[k].mark == mark
  {
    k := |entries| - 1;
    if entries[k].mark != mark { k := SeenAt(entries[..k], mark); }
  }

  /** Of two fingerprints the one listed first was seen before the other ever was. */
  lemma {:induction false} MarksAsFirstSeen(entries: seq<Entry>, i: nat, j: nat) returns (k: nat)
    requires i < j < |Marks(entries)|
    ensures k < |entries| && entries[k].mark == Marks(entries)[i]
    ensures forall h :: 0 <= h <= k ==> entries[h].mark != Marks(entries)[j]
  {
    var init := entries[..|entries| - 1];
    if j < |Marks(init)| {
      k := MarksAsFirstSeen(init, i, j);
    } else {
      k := SeenAt(init, Marks(init)[i]);
      forall h | 0 <= h <= k ensures entries[h].mark in Marks(init) { MarkOf(init, h); }
    }
  }

  predicate Distinct(marks: seq<string>) {
    marks == [] || (Distinct(marks[..|marks| - 1]) && marks[|marks| - 1] !in marks[..|marks| - 1])
  }

  lemma {:induction false} MarksDistinct(entries: seq<Entry>)
    ensures Distinct(Marks(entries))
  {
    if entries != [] {
      var before := Marks(entries[..|entries| - 1]);
      MarksDistinct(entries[..|entries| - 1]);
      assert (before + [entries[|entries| - 1].mark])[..|before|] == before;
    }
  }

  // ---- What a group says about its entries ----

  lemma {:induction false} CountAndHead(es: seq<Entry>)
    requires es != []
    ensures GroupOf(es).count == |es| && GroupOf(es).head == es[0] && GroupOf(es).mark == es[0].mark
  {
    if |es| > 1 { CountAndHead(es[..|es| - 1]); }
  }

  predicate NoneTimed(es: seq<Entry>) { forall i :: 0 <= i < |es| ==> es[i].ts.None? }

  /** The latest timestamp and the last entry that carries it; without one, the first entry. */
  predicate LatestAt(es: seq<Entry>, g: Group, k: nat) {
    && k < |es| && es[k].ts == g.lastSeen && g.sample == es[k]
    && (forall j :: k < j < |es| ==> es[j].ts != g.lastSeen || g.lastSeen.None?)
    && (g.lastSeen.None? ==> k == 0 && NoneTimed(es))
    && (g.lastSeen.Some? ==>
          forall i :: 0 <= i < |es| && es[i].ts.Some? ==> StringLe(es[i].ts.value, g.lastSeen.value))
  }

  lemma AddLatest(es: seq<Entry>, g: Group, k: nat, e: Entry) returns (k': nat)
    requires LatestAt(es, g, k)
    ensures LatestAt(es + [e], Add(g, e), k')
  {
    var g' := Add(g, e);
    if e.ts.None? {
      k' := k;
    } else {
      if g.lastSeen.Some? {
        StringTrichotomy(g.lastSeen.value, e.ts.value);
        EmptyIsLeast(e.ts.value);
        forall i | 0 <= i < |es| && es[i].ts.Some? ensures StringLe(es[i].ts.value, g'.lastSeen.value) {
          StringLeTotal();
        }
      }
      StringTrichotomy(e.ts.value, e.ts.value);
      k' := if StringLe(g'.lastSeen.value, e.ts.value) then |es| else k;
    }
  }

  lemma EmptyIsLeast(s: string)
    ensures StringLe("", s) && (StringLe(s, "") ==> s == "")
  {
  }

  /** Last seen is the latest timestamp, and the sample the last entry carrying it. */
  lemma {:induction false} LatestIs(es: seq<Entry>) returns (k: nat)
    requires es != []
    ensures LatestAt(es, GroupOf(es), k)
  {
    if |es| == 1 {
      k := 0;
      if es[0].ts.Some? { StringTrichotomy(es[0].ts.value, es[0].ts.value); }
    } else {
      var init := es[..|es| - 1];
      var before := LatestIs(init);
      assert init + [es[|es| - 1]] == es;
      k := AddLatest(init, GroupOf(init), before, es[|es| - 1]);
    }
  }

  /** The last timestamp that is present. */
  function LastTimed(es: seq<Entry>): Option<string> {
    if es == [] then None
    else if es[|es| - 1].ts.Some? then es[|es| - 1].ts
    else LastTimed(es[..|es| - 1])
  }

  predicate HasEmpty(es: seq<Entry>) { exists i :: 0 <= i < |es| && es[i].ts == Some("") }

  /** The earliest timestamp there is. */
  predicate Earliest(es: seq<Entry>, first: Option<string>) {
    if first.None? then NoneTimed(es)
    else
      (exists i :: 0 <= i < |es| && es[i].ts == first) &&
      (forall i :: 0 <= i < |es| && es[i].ts.Some? ==> StringLe(first.value, es[i].ts.value))
  }

  predicate FirstSound(es: seq<Entry>, first: Option<string>) {
    && (first.None? <==> LastTimed(es).None?) && (first.None? ==> NoneTimed(es))
    && (first == Some("") <==> LastTimed(es) == Some(""))
    && (first == Some("") ==> HasEmpty(es))
    && (!HasEmpty(es) ==> Earliest(es, first))
  }

  lemma AddFirst(es: seq<Entry>, g: Group, e: Entry)
    requires FirstSound(es, g.firstSeen)
    ensures FirstSound(es + [e], Add(g, e).firstSeen)
  {
    var longer, first := es + [e], Add(g, e).firstSeen;
    assert longer[..|es|] == es;
    if HasEmpty(es) {
      var i :| 0 <= i < |es| && es[i].ts == Some("");
      assert longer[i].ts == Some("");
    }
    if e.ts.Some? {
      assert longer[|es|] == e;
      EmptyIsLeast(e.ts.value);
      if !HasEmpty(longer) {
        AddEarliest(es, g.firstSeen, e.ts.value);
        assert first == Some(Lesser(g.firstSeen, e.ts.value));
        EarliestSnoc(es, e, first);
      }
    } else if !HasEmpty(longer) {
      EarliestSnoc(es, e, first);
    }
  }

  function Lesser(first: Option<string>, ts: string): string {
    if Empty(first) || StringLess(ts, first.value) then ts else first.value
  }

  /** The lesser of two is no later than what either was no later than. */
  lemma AddEarliest(es: seq<Entry>, first: Option<string>, ts: string)
    requires Earliest(es, first) && ts != "" && first != Some("")
    ensures StringLe(Lesser(first, ts), ts)
    ensures forall i :: 0 <= i < |es| && es[i].ts.Some? ==> StringLe(Lesser(first, ts), es[i].ts.value)
  {
    StringTrichotomy(ts, ts);
    if first.Some? {
      StringTrichotomy(first.value, ts);
      StringLeTotal();
    }
  }

  lemma EarliestSnoc(es: seq<Entry>, e: Entry, first: Option<string>)
    requires first.None? ==> NoneTimed(es) && e.ts.None?
    requires first.Some? ==> e.ts == first || exists i :: 0 <= i < |es| && es[i].ts == first
    requires first.Some? ==> forall i :: 0 <= i < |es| && es[i].ts.Some? ==> StringLe(first.value, es[i].ts.value)
    requires first.Some? && e.ts.Some? ==> StringLe(first.value, e.ts.value)
    ensures Earliest(es + [e], first)
  {
    var longer := es + [e];
    assert longer[|es|] == e;
    if first.Some? && e.ts != first {
      var i :| 0 <= i < |es| && es[i].ts == first;
      assert longer[i] == es[i];
    }
  }

  lemma {:induction false} FirstIsSound(es: seq<Entry>)
    requires es != []
    ensures FirstSound(es, GroupOf(es).firstSeen)
  {
    if |es| == 1 {
      if es[0].ts.Some? {
        StringTrichotomy(es[0].ts.value, es[0].ts.value);
        assert es[0].ts == GroupOf(es).firstSeen;
      }
    } else {
      FirstIsSound(es[..|es| - 1]);
      AddFirst(es[..|es| - 1], GroupOf(es[..|es| - 1]), es[|es| - 1]);
      assert es[..|es| - 1] + [es[|es| - 1]] == es;
    }
  }

  /** First seen is the earliest timestamp exactly when no timestamp is empty, or the last one
      is: an empty one counts as not set and is written over by whatever comes next. */
  lemma FirstSeenExactly(es: seq<Entry>)
    requires es != []
    ensures Earliest(es, GroupOf(es).firstSeen) <==> !HasEmpty(es) || LastTimed(es) == Some("")
  {
    var first := GroupOf(es).firstSeen;
    FirstIsSound(es);
    if HasEmpty(es) {
      var i :| 0 <= i < |es| && es[i].ts == Some("");
      if first.Some? { EmptyIsLeast(first.value); }
      forall j | 0 <= j < |es| && es[j].ts.Some? ensures StringLe("", es[j].ts.value) {
        EmptyIsLeast(es[j].ts.value);
      }
    }
  }

  // ---- The pass over the entries ----

  /** The dictionary's values: one group per fingerprint, in insertion order. */
  function Groups(entries: seq<Entry>, marks: seq<string>): seq<Group>
    requires forall mark :: mark in marks ==> Of(entries, mark) != []
  {
    if marks == [] then [] else Groups(entries, marks[..|marks| - 1]) + [GroupOf(Of(entries, marks[|marks| - 1]))]
  }

  lemma {:induction false} GroupsAt(entries: seq<Entry>, marks: seq<string>, i: nat)
    requires forall mark :: mark in marks ==> Of(entries, mark) != []
    requires i < |marks|
    ensures |Groups(entries, marks)| == |marks| && Groups(entries, marks)[i] == GroupOf(Of(entries, marks[i]))
  {
    if i < |marks| - 1 {
      GroupsAt(entries, marks[..|marks| - 1], i);
    } else if |marks| > 1 {
      GroupsAt(entries, marks[..|marks| - 1], 0);
    }
  }

  function AllGroups(entries: seq<Entry>): seq<Group> {
    AllMarked(entries);
    Groups(entries, Marks(entries))
  }

  lemma AllMarked(entries: seq<Entry>)
    ensures forall mark :: mark in Marks(entries) ==> Of(entries, mark) != []
  {
  }

  function Total(groups: seq<Group>): nat {
    if groups == [] then 0 else Total(groups[..|groups| - 1]) + groups[|groups| - 1].count
  }

  /** How many entries carry one of these fingerprints. */
  function Covered(entries: seq<Entry>, marks: seq<string>): nat {
    if entries == [] then 0
    else Covered(entries[..|entries| - 1], marks) + (if entries[|entries| - 1].mark in marks then 1 else 0)
  }

  lemma {:induction false} CoveredSnoc(entries: seq<Entry>, marks: seq<string>, mark: string)
    requires mark !in marks
    ensures Covered(entries, marks + [mark]) == Covered(entries, marks) + |Of(entries, mark)|
  {
    if entries != [] { CoveredSnoc(entries[..|entries| - 1], marks, mark); }
  }

  lemma {:induction false} CoveredNone(entries: seq<Entry>)
    ensures Covered(entries, []) == 0
  {
    if entries != [] { CoveredNone(entries[..|entries| - 1]); }
  }

  lemma TotalSnoc(groups: seq<Group>, g: Group)
    ensures Total(groups + [g]) == Total(groups) + g.count
  {
    assert (groups + [g])[..|groups|] == groups;
  }

  lemma {:induction false} TotalIs(entries: seq<Entry>, marks: seq<string>)
    requires Distinct(marks) && forall mark :: mark in marks ==> Of(entries, mark) != []
    ensures Total(Groups(entries, marks)) == Covered(entries, marks)
  {
    if marks == [] {
      CoveredNone(entries);
    } else {
      var before, mark := marks[..|marks| - 1], marks[|marks| - 1];
      TotalIs(entries, before);
      CountAndHead(Of(entries, mark));
      CoveredSnoc(entries, before, mark);
      TotalSnoc(Groups(entries, before), GroupOf(Of(entries, mark)));
      assert before + [mark] == marks;
    }
  }

  lemma {:induction false} CoversAll(entries: seq<Entry>, marks: seq<string>)
    requires forall i :: 0 <= i < |entries| ==> entries[i].mark in marks
    ensures Covered(entries, marks) == |entries|
  {
    if entries != [] { CoversAll(entries[..|entries| - 1], marks); }
  }

  lemma {:induction false} MarkOf(entries: seq<Entry>, i: nat)
    requires i < |entries|
    ensures entries[i].mark in Marks(entries)
  {
    if i < |entries| - 1 { MarkOf(entries[..|entries| - 1], i); }
  }

  /** Every entry is counted once: the counts add up to the entries read. */
  lemma CountsAddUp(entries: seq<Entry>)
    ensures Total(AllGroups(entries)) == |entries|
  {
    AllMarked(entries);
    MarksDistinct(entries);
    TotalIs(entries, Marks(entries));
    forall i | 0 <= i < |entries| ensures entries[i].mark in Marks(entries) { MarkOf(entries, i); }
    CoversAll(entries, Marks(entries));
  }

  // ---- The order of the page ----

  function Seen(g: Group): string { if g.lastSeen.Some? then g.lastSeen.value else "" }

  /** Whether one group may stand before another: more entries, then seen no earlier. */
  predicate Ranks(a: Group, b: Group) {
    a.count > b.count || (a.count == b.count && StringLe(Seen(b), Seen(a)))
  }

  lemma RanksTotal()
    ensures TotalPreorder(Ranks)
  {
    StringLeTotal();
  }

  function Ordered(entries: seq<Entry>): seq<Group> { Sort(AllGroups(entries), Ranks) }

  function Take<T>(s: seq<T>, limit: nat): seq<T> { if |s| <= limit then s else s[..limit] }

  function Top(entries: seq<Entry>, limit: nat): seq<Group> { Take(Ordered(entries), limit) }

  lemma TakeOutranks(ordered: seq<Group>, limit: nat)
    requires Sorted(ordered, Ranks)
    ensures var top := Take(ordered, limit);
            top + ordered[|top|..] == ordered &&
            forall i, j :: 0 <= i < |top| && 0 <= j < |ordered[|top|..]| ==> Ranks(top[i], ordered[|top|..][j])
  {
    var top := Take(ordered, limit);
    forall i, j | 0 <= i < |top| && 0 <= j < |ordered[|top|..]| ensures Ranks(top[i], ordered[|top|..][j]) {
      SortedAt(ordered, Ranks, i, |top| + j);
    }
  }

  /** No group left out outranks one returned, none is lost or made up, and groups that rank the
      same keep the order in which they were first seen. */
  lemma TopOutranksTheRest(entries: seq<Entry>, limit: nat) returns (rest: seq<Group>)
    ensures multiset(Top(entries, limit) + rest) == multiset(AllGroups(entries))
    ensures |Top(entries, limit)| == if |AllGroups(entries)| <= limit then |AllGroups(entries)| else limit
    ensures forall i, j :: 0 <= i < |Top(entries, limit)| && 0 <= j < |rest| ==> Ranks(Top(entries, limit)[i], rest[j])
  {
    RanksTotal();
    SortSorts(AllGroups(entries), Ranks);
    TakeOutranks(Ordered(entries), limit);
    rest := Ordered(entries)[|Top(entries, limit)|..];
  }

  /** The page itself is in that order: more entries first, and of as many the later seen first. */
  lemma PageIsRanked(entries: seq<Entry>, limit: nat, i: nat, j: nat)
    requires i < j < |Top(entries, limit)|
    ensures var a, b := Top(entries, limit)[i], Top(entries, limit)[j];
            a.count >= b.count &&
            (a.count == b.count && b.lastSeen.Some? && b.lastSeen.value != "" ==>
               a.lastSeen.Some? && StringLe(b.lastSeen.value, a.lastSeen.value))
  {
    RanksTotal();
    SortSorts(AllGroups(entries), Ranks);
    SortedAt(Ordered(entries), Ranks, i, j);
    var b := Top(entries, limit)[j];
    if b.lastSeen.Some? { EmptyIsLeast(b.lastSeen.value); }
  }

  lemma TiesKeepTheirOrder(entries: seq<Entry>, count: nat, seen: string)
    ensures var keep := (g: Group) => g.count == count && Seen(g) == seen;
            Filter(Ordered(entries), keep) == Filter(AllGroups(entries), keep)
  {
    StringTrichotomy(seen, seen);
    SortStable(AllGroups(entries), Ranks, (g: Group) => g.count == count && Seen(g) == seen);
  }

  // ---- The loop ----

  lemma OfSnoc(entries: seq<Entry>, n: nat, mark: string)
    requires n < |entries|
    ensures Of(entries[..n + 1], mark) ==
            if entries[n].mark == mark then Of(entries[..n], mark) + [entries[n]] else Of(entries[..n], mark)
  {
    assert entries[..n + 1][..n] == entries[..n];
  }

  lemma MarksSnoc(entries: seq<Entry>, n: nat)
    requires n < |entries|
    ensures Marks(entries[..n + 1]) ==
            if entries[n].mark in Marks(entries[..n]) then Marks(entries[..n])
            else Marks(entries[..n]) + [entries[n].mark]
  {
    assert entries[..n + 1][..n] == entries[..n];
  }

  /** What the dictionary holds for one fingerprint after some entries. */
  predicate Holds(groups: map<string, Group>, entries: seq<Entry>, mark: string) {
    && (mark in groups <==> Of(entries, mark) != [])
    && (mark in groups ==> groups[mark] == GroupOf(Of(entries, mark)))
  }

  ghost predicate HoldsAll(groups: map<string, Group>, entries: seq<Entry>) {
    forall mark :: Holds(groups, entries, mark)
  }

  function Updated(groups: map<string, Group>, e: Entry): map<string, Group> {
    groups[e.mark := if e.mark in groups then Add(groups[e.mark], e) else Fresh(e)]
  }

  lemma HoldsSnoc(groups: map<string, Group>, entries: seq<Entry>, n: nat, mark: string)
    requires n < |entries| && Holds(groups, entries[..n], mark)
    ensures Holds(Updated(groups, entries[n]), entries[..n + 1], mark)
  {
    var before, e := Of(entries[..n], mark), entries[n];
    OfSnoc(entries, n, mark);
    if e.mark == mark {
      assert (before + [e])[..|before|] == before;
    }
  }

  lemma HoldsAllSnoc(groups: map<string, Group>, entries: seq<Entry>, n: nat)
    requires n < |entries| && HoldsAll(groups, entries[..n])
    ensures HoldsAll(Updated(groups, entries[n]), entries[..n + 1])
  {
    var after, read := Updated(groups, entries[n]), entries[..n + 1];
    forall mark ensures Holds(after, read, mark) {
      HoldsSnoc(groups, entries, n, mark);
    }
  }

  /** api_errors_groups(): the groups of the page, and how many entries and groups there are. */
  method GroupErrors(entries: seq<Entry>, limit: nat) returns (page: seq<Group>, total: nat, kinds: nat)
    ensures page == Top(entries, limit) && total == |entries| && kinds == |AllGroups(entries)|
  {
    var groups: map<string, Group>, order := map[], [];
    total := 0;
    while total < |entries|
      invariant total <= |entries| && order == Marks(entries[..total])
      invariant HoldsAll(groups, entries[..total])
    {
      var e := entries[total];
      MarksAre(entries[..total], e.mark);
      assert Holds(groups, entries[..total], e.mark);
      MarksSnoc(entries, total);
      HoldsAllSnoc(groups, entries, total);
      if e.mark in groups {
        groups := groups[e.mark := Add(groups[e.mark], e)];
      } else {
        groups, order := groups[e.mark := Fresh(e)], order + [e.mark];
      }
      total := total + 1;
    }
    assert entries[..total] == entries;
    AllMarked(entries);
    assert forall mark :: mark in order ==> Holds(groups, entries, mark);
    var values := Values(groups, order, entries);
    var ordered := Sort(values, Ranks);
    kinds := |values|;
    page := if |ordered| <= limit then ordered else ordered[..limit];
  }

  method Values(groups: map<string, Group>, order: seq<string>, ghost entries: seq<Entry>) returns (values: seq<Group>)
    requires forall mark :: mark in order ==> Of(entries, mark) != []
    requires forall mark :: mark in order ==> Holds(groups, entries, mark)
    ensures values == Groups(entries, order)
  {
    values := [];
    var n := 0;
    while n < |order|
      invariant n <= |order| && values == Groups(entries, order[..n])
    {
      assert order[..n + 1][..n] == order[..n] && Holds(groups, entries, order[n]);
      values := values + [groups[order[n]]];
      n := n + 1;
    }
    assert order[..n] == order;
  }
}
