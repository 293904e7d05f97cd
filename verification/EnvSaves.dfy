/** Saves of .env settings that interleave (blueprints/admin.py, _set_env_value and
    api_mcp_settings_put): each writer holds the one lock over all the keys of its request and
    reads and writes the file once per key. */
module EnvSaves {
  import opened Wrappers
  import opened EnvEditor

  datatype Edit = Edit(key: string, value: string)

  /** What a writer has still to do, and the text it has read for the key it is at. */
  datatype Writer = Writer(todo: seq<Edit>, read: Option<string>)

  /** The saves written so far, and by whom each was. */
  datatype Disk = Disk(file: string, holder: Option<nat>, writers: map<nat, Writer>, done: seq<Edit>, who: seq<nat>)

  datatype Step = Arrive(w: nat, edits: seq<Edit>) | Acquire(w: nat) | Read(w: nat) | Write(w: nat) | Fail(w: nat)
                | Release(w: nat)

  predicate Enabled(d: Disk, step: Step) {
    match step
    case Arrive(w, edits) => w !in d.writers && edits != []
    case Acquire(w) => d.holder == None && w in d.writers && d.writers[w].todo != []
    case Read(w) => d.holder == Some(w) && w in d.writers && d.writers[w].todo != [] && d.writers[w].read == None
    case Write(w) => d.holder == Some(w) && w in d.writers && d.writers[w].todo != [] && d.writers[w].read.Some?
    case Fail(w) => d.holder == Some(w) && w in d.writers
    case Release(w) => d.holder == Some(w) && w in d.writers && d.writers[w].todo == []
  }

  function Next(d: Disk, step: Step): Disk
    requires Enabled(d, step)
  {
    match step
    case Arrive(w, edits) => d.(writers := d.writers[w := Writer(edits, None)])
    case Acquire(w) => d.(holder := Some(w))
    case Read(w) => d.(writers := d.writers[w := d.writers[w].(read := Some(d.file))])
    case Write(w) =>
      var edit := d.writers[w].todo[0];
      d.(file := Set(d.writers[w].read.value, edit.key, edit.value),
         writers := d.writers[w := Writer(d.writers[w].todo[1..], None)], done := d.done + [edit], who := d.who + [w])
    case Fail(w) => d.(writers := d.writers[w := Writer([], None)])
    case Release(w) => d.(holder := None)
  }

  predicate Possible(d: Disk, steps: seq<Step>)
    decreases steps
  {
    steps == [] || (Enabled(d, steps[0]) && Possible(Next(d, steps[0]), steps[1..]))
  }

  function After(d: Disk, steps: seq<Step>): Disk
    requires Possible(d, steps)
    decreases steps
  {
    if steps == [] then d else After(Next(d, steps[0]), steps[1..])
  }

  /** The saves carried out one after another on a file nobody else touches. */
  function Replay(file: string, done: seq<Edit>): string {
    if done == [] then file
    else Set(Replay(file, done[..|done| - 1]), done[|done| - 1].key, done[|done| - 1].value)
  }

  /** Only the holder has read the file, for a key it has still to write, and what it read is
      what is there. */
  predicate ReadsCurrent(d: Disk) {
    forall w :: w in d.writers && d.writers[w].read.Some? ==>
      d.holder == Some(w) && d.writers[w].read.value == d.file && d.writers[w].todo != []
  }

  lemma ReplayStep(first: string, d: Disk, step: Step)
    requires ReadsCurrent(d) && d.file == Replay(first, d.done) && Enabled(d, step)
    ensures ReadsCurrent(Next(d, step)) && Next(d, step).file == Replay(first, Next(d, step).done)
  {
  }

  /** No save is lost: in every interleaving the file is what the finished saves give when they
      are carried out one by one in the order in which they were written. */
  lemma {:induction false} NoSaveLost(first: string, d: Disk, steps: seq<Step>)
    requires ReadsCurrent(d) && d.file == Replay(first, d.done) && Possible(d, steps)
    ensures After(d, steps).file == Replay(first, After(d, steps).done)
    decreases steps
  {
    if steps != [] {
      ReplayStep(first, d, steps[0]);
      NoSaveLost(first, Next(d, steps[0]), steps[1..]);
    }
  }

  /** What the holder of the lock does with so many keys left: each read and written, then the lock
      given back. */
  function Finish(w: nat, n: nat): seq<Step> {
    if n == 0 then [Release(w)] else [Read(w)] + ([Write(w)] + Finish(w, n - 1))
  }

  lemma StepCons(d: Disk, step: Step, rest: seq<Step>)
    requires Enabled(d, step)
    ensures Possible(d, [step] + rest) <==> Possible(Next(d, step), rest)
    ensures Possible(d, [step] + rest) ==> After(d, [step] + rest) == After(Next(d, step), rest)
  {
    assert ([step] + rest)[1..] == rest;
  }

  lemma {:induction false} ReplayConcat(file: string, a: seq<Edit>, b: seq<Edit>)
    ensures Replay(file, a + b) == Replay(Replay(file, a), b)
  {
    if b == [] {
      assert a + b == a;
    } else {
      assert (a + b)[..|a + b| - 1] == a + b[..|b| - 1];
      ReplayConcat(file, a, b[..|b| - 1]);
    }
  }

  /** The lock's holder with these keys left, after it has put these where they belong. */
  predicate Landed(d: Disk, d': Disk, w: nat, keys: seq<Edit>, todo: seq<Edit>) {
    && d'.file == Replay(d.file, keys) && d'.done == d.done + keys && d'.holder == Some(w)
    && w in d'.writers && d'.writers[w] == Writer(todo, None)
  }

  /** One key read and written. */
  lemma KeyLands(d: Disk, w: nat, todo: seq<Edit>, rest: seq<Step>) returns (d': Disk)
    requires d.holder == Some(w) && w in d.writers && d.writers[w] == Writer(todo, None) && todo != []
    ensures Landed(d, d', w, todo[..1], todo[1..])
    ensures Possible(d', rest) ==> Possible(d, [Read(w)] + ([Write(w)] + rest)) &&
                                   After(d, [Read(w)] + ([Write(w)] + rest)) == After(d', rest)
  {
    var d1 := Next(d, Read(w));
    d' := Next(d1, Write(w));
    StepCons(d, Read(w), [Write(w)] + rest);
    StepCons(d1, Write(w), rest);
    assert todo[..1] == [todo[0]] && todo[..1][..0] == [];
  }

  lemma FirstAndRest<T>(s: seq<T>)
    requires s != []
    ensures s == s[..1] + s[1..]
  {
  }

  lemma LandsTogether(d: Disk, d': Disk, file: string, done: seq<Edit>, w: nat, x: seq<Edit>, y: seq<Edit>,
                      all: seq<Edit>)
    requires Landed(d, d', w, x, y) && file == Replay(d'.file, y) && done == d'.done + y && all == x + y
    ensures file == Replay(d.file, all) && done == d.done + all
  {
    ReplayConcat(d.file, x, y);
    Assoc(d.done, x, y);
  }

  lemma {:induction false} FinishLands(d: Disk, w: nat, todo: seq<Edit>)
    requires d.holder == Some(w) && w in d.writers && d.writers[w] == Writer(todo, None)
    ensures Possible(d, Finish(w, |todo|))
    ensures var d' := After(d, Finish(w, |todo|));
            d'.file == Replay(d.file, todo) && d'.done == d.done + todo && d'.holder == None
    decreases |todo|
  {
    if todo == [] {
      StepCons(d, Release(w), []);
    } else {
      var rest := Finish(w, |todo| - 1);
      var d' := KeyLands(d, w, todo, rest);
      FinishLands(d', w, todo[1..]);
      FirstAndRest(todo);
      LandsTogether(d, d', After(d', rest).file, After(d', rest).done, w, todo[..1], todo[1..], todo);
    }
  }

  /** Nothing keeps a request out for good: wherever the lock is free, one that arrives can take it,
      and its keys land in the order asked for, every one of them. */
  lemma RequestLands(d: Disk, w: nat, edits: seq<Edit>)
    requires d.holder == None && w !in d.writers && edits != []
    ensures var steps := [Arrive(w, edits)] + ([Acquire(w)] + Finish(w, |edits|));
            Possible(d, steps) &&
            After(d, steps).file == Replay(d.file, edits) && After(d, steps).done == d.done + edits &&
            After(d, steps).holder == None
  {
    var d1 := Next(d, Arrive(w, edits));
    var d2 := Next(d1, Acquire(w));
    StepCons(d, Arrive(w, edits), [Acquire(w)] + Finish(w, |edits|));
    StepCons(d1, Acquire(w), Finish(w, |edits|));
    FinishLands(d2, w, edits);
  }

  /** A write that fails drops the rest of its request, gives the lock back and changes no text. */
  lemma FailureFrees(d: Disk, w: nat)
    requires d.holder == Some(w) && w in d.writers
    ensures Possible(d, [Fail(w), Release(w)])
    ensures After(d, [Fail(w), Release(w)]) == d.(holder := None, writers := d.writers[w := Writer([], None)])
  {
    assert [Fail(w), Release(w)] == [Fail(w)] + [Release(w)] && [Release(w)] == [Release(w)] + [];
    StepCons(d, Fail(w), [Release(w)]);
    StepCons(Next(d, Fail(w)), Release(w), []);
  }

  // ---- One request's keys land together ----

  /** Every writer's saves stand next to each other. */
  predicate Together(who: seq<nat>) {
    who == [] ||
    (Together(who[..|who| - 1]) && (who[|who| - 1] in who[..|who| - 1] ==> who[|who| - 2] == who[|who| - 1]))
  }

  /** Whoever has work left and does not hold the lock has written nothing yet; whoever holds it
      and has written wrote last. */
  predicate Orderly(d: Disk) {
    && (forall w :: w in d.writers && d.writers[w].todo != [] && d.holder != Some(w) ==> w !in d.who)
    && (forall w :: w in d.who ==> w in d.writers)
    && (d.holder.Some? && d.holder.value in d.who ==> d.who[|d.who| - 1] == d.holder.value)
  }

  lemma OrderlyStep(d: Disk, step: Step)
    requires Orderly(d) && Together(d.who) && Enabled(d, step)
    ensures Orderly(Next(d, step)) && Together(Next(d, step).who)
  {
  }

  /** A save from another request never lands between the keys of one. */
  lemma {:induction false} RequestsLandTogether(d: Disk, steps: seq<Step>)
    requires Orderly(d) && Together(d.who) && Possible(d, steps)
    ensures Together(After(d, steps).who)
    decreases steps
  {
    if steps != [] {
      OrderlyStep(d, steps[0]);
      RequestsLandTogether(Next(d, steps[0]), steps[1..]);
    }
  }

  lemma {:induction false} TogetherBetween(who: seq<nat>, i: nat, k: nat, j: nat)
    requires Together(who) && i <= k <= j < |who| && who[i] == who[j]
    ensures who[k] == who[i]
  {
    if k < j {
      var init := who[..|who| - 1];
      if j < |who| - 1 {
        TogetherBetween(init, i, k, j);
      } else {
        assert init[i] == who[j];
        TogetherBetween(init, i, k, j - 1);
      }
    }
  }

  // ---- What is read after any run of saves ----

  function LastSave(done: seq<Edit>, key: string): Option<string> {
    if done == [] then None
    else if done[|done| - 1].key == key then Some(done[|done| - 1].value)
    else LastSave(done[..|done| - 1], key)
  }

  predicate AllClean(done: seq<Edit>) { forall e :: e in done ==> CleanKey(e.key) && CleanValue(e.value) }

  /** Every key reads as its last save, or as before when nobody saved it. */
  lemma {:induction false} ReplayReads(file: string, done: seq<Edit>, key: string)
    requires CleanKey(key) && AllClean(done)
    ensures Get(Replay(file, done), key) ==
            if LastSave(done, key).Some? then LastSave(done, key) else Get(file, key)
  {
    if done != [] {
      var init, last := done[..|done| - 1], done[|done| - 1];
      assert last in done;
      ReplayReads(file, init, key);
      if last.key == key {
        SetReads(Replay(file, init), key, last.value);
      } else {
        SetKeepsOthers(Replay(file, init), last.key, last.value, key);
      }
    }
  }

  // ---- The writer, step by step ----

  datatype Outcome = Stored | Refused | Missing | Failed

  /** Whether one edit is let through, and what stops it. */
  function Verdict(present: bool, e: Edit, writes: bool): Outcome {
    if !KeyAccepted(e.key) || !ValueAccepted(e.value) then Refused
    else if !present then Missing else if !writes then Failed else Stored
  }

  /** A capital followed by capitals, digits and underscores. */
  predicate IsName(key: string) {
    && key != "" && 'A' <= key[0] <= 'Z'
    && forall i :: 0 <= i < |key| ==> 'A' <= key[i] <= 'Z' || '0' <= key[i] <= '9' || key[i] == '_'
  }

  lemma CleanIsName(key: string)
    ensures CleanKey(key) <==> IsName(key)
  {
    assert CleanKey(key) ==> forall i :: 0 <= i < |key| ==> key[i] in key;
  }

  /** An edit is refused for its key unless that is a name, with a newline behind it at most, and for
      a quote, a backslash or a newline in its value; let through, it is stored when there is a file
      and it can be written. */
  lemma RefusedExactly(present: bool, e: Edit, writes: bool)
    ensures Verdict(present, e, writes) == Refused <==>
            !(IsName(e.key) || (exists name :: IsName(name) && e.key == name + "\n")) ||
            '\'' in e.value || '\\' in e.value || '\n' in e.value
    ensures Verdict(present, e, writes) == Stored ==> present && writes
    ensures Verdict(present, e, writes) == Missing ==> !present
    ensures Verdict(present, e, writes) == Failed ==> present && !writes
  {
    CleanIsName(e.key);
    if |e.key| > 1 { CleanIsName(e.key[..|e.key| - 1]); }
    if e.key != "" && e.key[|e.key| - 1] == '\n' {
      var name := e.key[..|e.key| - 1];
      assert e.key == name + "\n";
      forall other | e.key == other + "\n" ensures other == name { }
    }
  }

  /** How many edits of a request are stored before the first that is not; each write may fail. */
  function Leading(edits: seq<Edit>, present: bool, writes: seq<bool>): (n: nat)
    requires |writes| == |edits|
    ensures n <= |edits|
    ensures forall k :: 0 <= k < n ==> Verdict(present, edits[k], writes[k]) == Stored
    ensures n < |edits| ==> Verdict(present, edits[n], writes[n]) != Stored
  {
    if edits == [] || Verdict(present, edits[0], writes[0]) != Stored then 0
    else 1 + Leading(edits[1..], present, writes[1..])
  }

  class EnvFile {
    var present: bool
    var text: string

    constructor (text: string)
      ensures present && this.text == text
    {
      present, this.text := true, text;
    }

    /** _set_env_value(). */
    method SetEnvValue(e: Edit, writes: bool) returns (outcome: Outcome)
      modifies this`text
      ensures outcome == Verdict(present, e, writes)
      ensures text == if outcome == Stored then Set(old(text), e.key, e.value) else old(text)
    {
      if !KeyAccepted(e.key) || !ValueAccepted(e.value) { return Refused; }
      var newLine := NewLine(e.key, e.value);
      if !present { return Missing; }
      var lines := Lines(text);
      ghost var before := lines;
      var i := 0;
      while i < |lines| && !Assigns(lines[i], e.key)
        invariant i <= |lines| && FirstAt(before, e.key) == i + FirstAt(before[i..], e.key)
      {
        assert before[i..][1..] == before[i + 1..];
        i := i + 1;
      }
      if i < |lines| {
        lines := lines[i := newLine];
      } else {
        assert FirstAt(before, e.key) == |before|;
        if lines != [] && !EndsWithNewline(lines[|lines| - 1]) {
          lines := lines[|lines| - 1 := lines[|lines| - 1] + "\n"];
        }
        lines := lines + [newLine];
        SameText(before, newLine);
      }
      if !writes { return Failed; }
      text := Join(lines);
      return Stored;
    }

    /** The keys of one request, in order, until one is not stored. */
    method SaveSettings(edits: seq<Edit>, writes: seq<bool>) returns (saved: nat)
      requires |writes| == |edits|
      modifies this`text
      ensures saved == Leading(edits, present, writes) && text == Replay(old(text), edits[..saved])
    {
      saved := 0;
      ghost var limit := Leading(edits, present, writes);
      while saved < |edits|
        invariant saved <= limit && text == Replay(old(text), edits[..saved])
      {
        var outcome := SetEnvValue(edits[saved], writes[saved]);
        LeadingGoesOn(edits, present, writes, saved, outcome);
        if outcome != Stored { return; }
        ReplayTake(old(text), edits, saved);
        saved := saved + 1;
      }
    }
  }

  lemma LeadingGoesOn(edits: seq<Edit>, present: bool, writes: seq<bool>, n: nat, outcome: Outcome)
    requires |writes| == |edits| && n < |edits| && n <= Leading(edits, present, writes)
    requires outcome == Verdict(present, edits[n], writes[n])
    ensures outcome == Stored <==> n < Leading(edits, present, writes)
  {
  }

  lemma ReplayTake(file: string, edits: seq<Edit>, n: nat)
    requires n < |edits|
    ensures Replay(file, edits[..n + 1]) == Set(Replay(file, edits[..n]), edits[n].key, edits[n].value)
  {
    assert edits[..n + 1][..n] == edits[..n];
  }

  predicate EndsWithNewline(line: string) { line != "" && line[|line| - 1] == '\n' }

  /** Adding the missing newline to the last line gives the text the edit is specified by. */
  lemma SameText(lines: seq<string>, newLine: string)
    ensures lines != [] && !EndsWithNewline(lines[|lines| - 1]) ==>
              Join(lines[|lines| - 1 := lines[|lines| - 1] + "\n"] + [newLine]) == Join(Finished(lines) + [newLine])
    ensures lines == [] || EndsWithNewline(lines[|lines| - 1]) ==> Finished(lines) == lines
  {
    if lines != [] && !EndsWithNewline(lines[|lines| - 1]) {
      var init, last := lines[..|lines| - 1], lines[|lines| - 1];
      assert lines[|lines| - 1 := last + "\n"] == init + [last + "\n"];
      if last != "" && Ended(last) {
        assert Finished(lines) == init + [last, "\n"];
        JoinConcat(init, [last + "\n"]);
        JoinConcat(init, [last, "\n"]);
        assert [last, "\n"][1..] == ["\n"] && ["\n"][1..] == [] && [last + "\n"][1..] == [];
        assert Join([last, "\n"]) == last + "\n" == Join([last + "\n"]);
        JoinConcat(init + [last + "\n"], [newLine]);
        JoinConcat(init + [last, "\n"], [newLine]);
      }
    }
  }
}
