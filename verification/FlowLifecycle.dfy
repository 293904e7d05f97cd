/** One workflow's life (blueprints/flow.py): its database row, the three in-memory
    registrations, the feeds its runs subscribed to, and the run lock. Every route is given
    the outcome of each step that can fail. The functions say what a route makes of a state;
    the class Platform carries the routes out step by step and is proved to do the same. */
module FlowLifecycle {
  import opened Wrappers
  import opened FlowGraph

  type Feed = nat

  datatype Row = Row(active: bool, nodes: seq<Node>, jobId: bool)

  datatype Flow = Flow(row: Option<Row>, job: Option<Arguments>, alert: Option<Arguments>,
                       watch: Option<Arguments>, feeds: set<Feed>, running: bool)
  {
    predicate Active() { row.Some? && row.value.active }

    predicate Disarmed() { job.None? && alert.None? && watch.None? }
  }

  /** What each fallible step of one request does. */
  datatype Faults = Faults(
    apiKey: bool,         // the user has an API key
    writeRow: bool,       // the route's own write to the row is stored
    unregisterJob: bool,  // the strict removal of the job does not raise
    clearJob: bool,       // add_workflow_job manages to clear the previous job
    arm: bool,            // add_workflow_job, add_alert or add_watch does not raise
    writeJobId: bool,     // set_schedule_job_id is stored
    undoJob: bool,        // the job whose id could not be stored is removed again
    rollbackJob: bool,    // _rollback_activation removes the job
    rollbackRow: bool,    // _rollback_activation clears the active flag
    deleteJob: bool,      // delete removes the job (not strict: a failure is swallowed)
    released: set<Feed>)  // the feeds whose release the websocket confirms

  datatype Reply = Done | NotFound | AlreadyActive | AlreadyInactive | Refused | Running | FeedConnected
                 | Failed | NeedsReactivate

  datatype Op =
    | Activate(runnable: bool, f: Faults)
    | Update(nodes: Option<seq<Node>>, valid: bool, f: Faults)
    | Replace(graph: seq<Node>, valid: bool, f: Faults)
    | Deactivate(f: Faults)
    | Delete(f: Faults)
    | BeginRun(runnable: bool)
    | Subscribe(feed: Feed)
    | EndRun

  function SetActive(s: Flow, on: bool): Flow {
    if s.row.Some? then s.(row := Some(s.row.value.(active := on))) else s
  }

  function SetJobId(s: Flow, on: bool): Flow {
    if s.row.Some? then s.(row := Some(s.row.value.(jobId := on))) else s
  }

  function SetNodes(s: Flow, nodes: seq<Node>): Flow {
    if s.row.Some? then s.(row := Some(s.row.value.(nodes := nodes))) else s
  }

  /** The state and whether an exception came out. */
  function Unregister(s: Flow, f: Faults): (Flow, bool) {
    if f.unregisterJob then (s.(job := None, alert := None, watch := None), false) else (s, true)
  }

  function Register(s: Flow, kind: Kind, fields: Option<Fields>, f: Faults): (Flow, bool) {
    match WantedBy(kind, fields)
    case Nothing => (s, false)
    case Malformed => (s, true)
    case Arm(Alert(args)) => if f.arm then (s.(alert := Some(args)), false) else (s, true)
    case Arm(Watch(args)) => if f.arm then (s.(watch := Some(args)), false) else (s, true)
    case Arm(Job(args)) =>
      if !f.arm then (if f.clearJob then s.(job := None) else s, true)
      else if f.writeJobId && s.row.Some? then (SetJobId(s.(job := Some(args)), true), false)
      else (s.(job := if f.undoJob then None else Some(args)), true)
  }

  function Rollback(s: Flow, f: Faults): Flow {
    var off := s.(job := if f.rollbackJob then None else s.job, alert := None, watch := None);
    if f.rollbackRow then SetActive(off, false) else off
  }

  function Reregister(s: Flow, nodes: seq<Node>, f: Faults): (Flow, bool) {
    match FirstTrigger(nodes)
    case Some(Trigger(kind, data)) =>
      if !f.apiKey then (s, true)
      else
        var (torn, raised) := Unregister(s, f);
        if raised then (torn, true) else Register(torn, kind, FieldsOf(data), f)
    case _ => (s, true)
  }

  /** The graph is stored; an active workflow whose trigger configuration changed is armed
      anew, and stood down when that fails. */
  function Save(s: Flow, nodes: seq<Node>, f: Faults): (Flow, Reply)
    requires s.row.Some?
  {
    var stored := SetNodes(s, nodes);
    if s.Active() && TriggerConfig(nodes) != TriggerConfig(s.row.value.nodes) then
      var (armed, raised) := Reregister(stored, nodes, f);
      if raised then (Rollback(armed, f), NeedsReactivate) else (armed, Done)
    else (stored, Done)
  }

  /** Activation hands the node's data over as it is: a falsy one raises. */
  function ActivationFields(data: Data): Option<Fields> {
    if data == Falsy then None else FieldsOf(data)
  }

  function Activated(s: Flow, runnable: bool, f: Faults): (Flow, Reply) {
    if s.row.None? then (s, NotFound)
    else if s.row.value.active then (s, AlreadyActive)
    else if !f.apiKey || !runnable || TriggerCount(s.row.value.nodes) != 1 then (s, Refused)
    else match FirstTrigger(s.row.value.nodes)
      case Some(Trigger(kind, data)) =>
        if !f.writeRow then (s, Failed)
        else
          var (armed, raised) := Register(SetActive(s, true), kind, ActivationFields(data), f);
          if raised then (Rollback(armed, f), Failed) else (armed, Done)
      case _ => (s, Refused)
  }

  function Updated(s: Flow, nodes: Option<seq<Node>>, valid: bool, f: Faults): (Flow, Reply) {
    if nodes.Some? && !valid then (s, Refused)
    else if s.row.None? || !f.writeRow then (s, NotFound)
    else Save(s, if nodes.Some? then nodes.value else s.row.value.nodes, f)
  }

  function Replaced(s: Flow, graph: seq<Node>, valid: bool, f: Faults): (Flow, Reply) {
    if s.row.None? then (s, NotFound)
    else if !valid || TriggerCount(graph) != 1 then (s, Refused)
    else if !f.writeRow then (s, Failed)
    else Save(s, graph, f)
  }

  function Deactivated(s: Flow, f: Faults): (Flow, Reply) {
    if s.running then (s, Running)
    else if s.row.None? then (s, NotFound)
    else
      var let := s.(feeds := s.feeds - f.released);
      if let.feeds != {} then (let, FeedConnected)
      else if !s.row.value.active then (let, AlreadyInactive)
      else
        var (torn, raised) := Unregister(let, f);
        if raised then (torn, Failed)
        else
          var cleared := if s.row.value.jobId && f.writeJobId then SetJobId(torn, false) else torn;
          if f.writeRow then (SetActive(cleared, false), Done) else (cleared, Failed)
  }

  function Deleted(s: Flow, f: Faults): (Flow, Reply) {
    if s.running then (s, Running)
    else if s.row.None? then (s, NotFound)
    else
      var let := s.(feeds := s.feeds - f.released);
      if let.feeds != {} then (let, FeedConnected)
      else
        var torn := if s.row.value.active
                    then let.(job := if f.deleteJob then None else s.job, alert := None, watch := None)
                    else let;
        if f.writeRow then (torn.(row := None), Done) else (torn, Failed)
  }

  /** One request, or one step of a run, with its answer. A run takes the lock before it reads
      the row, and only a run that found a runnable row goes on to subscribe. */
  function Apply(s: Flow, op: Op): (Flow, Reply) {
    match op
    case Activate(runnable, f) => Activated(s, runnable, f)
    case Update(nodes, valid, f) => Updated(s, nodes, valid, f)
    case Replace(graph, valid, f) => Replaced(s, graph, valid, f)
    case Deactivate(f) => Deactivated(s, f)
    case Delete(f) => Deleted(s, f)
    case BeginRun(runnable) =>
      if s.running then (s, Running)
      else if s.row.None? || !runnable then (s, Refused)
      else (s.(running := true), Done)
    case Subscribe(feed) => if s.running then (s.(feeds := s.feeds + {feed}), Done) else (s, Refused)
    case EndRun => if s.running then (s.(running := false), Done) else (s, Refused)
  }

  function Run(s: Flow, ops: seq<Op>): Flow
    decreases ops
  {
    if ops == [] then s else Run(Apply(s, ops[0]).0, ops[1..])
  }

  /** A workflow as create_workflow leaves it. */
  function Created(nodes: seq<Node>): Flow {
    Flow(Some(Row(false, nodes, false)), None, None, None, {}, false)
  }

  // ---- What every run keeps ----

  /** Off means disarmed: an inactive or deleted workflow has nothing armed. */
  predicate Quiet(s: Flow) { !s.Active() ==> s.Disarmed() }

  /** Whatever is armed is what the stored graph asks for, so at most one kind is. */
  predicate Fresh(s: Flow) {
    && (s.job.Some? ==> s.row.Some? && GraphWants(s.row.value.nodes) == Arm(Job(s.job.value)))
    && (s.alert.Some? ==> s.row.Some? && GraphWants(s.row.value.nodes) == Arm(Alert(s.alert.value)))
    && (s.watch.Some? ==> s.row.Some? && GraphWants(s.row.value.nodes) == Arm(Watch(s.watch.value)))
  }

  /** Only a row can hold feeds or be run. */
  predicate Owned(s: Flow) { s.row.None? ==> s.feeds == {} && !s.running }

  /** The removals whose failure the routes swallow do not fail. */
  predicate RemovalsSucceed(op: Op) {
    match op
    case Activate(_, f) => f.rollbackJob
    case Update(_, _, f) => f.rollbackJob
    case Replace(_, _, f) => f.rollbackJob
    case Delete(f) => f.deleteJob
    case _ => true
  }

  /** Registering touches neither the feeds, nor the run lock, nor the rest of the row. */
  predicate SameLife(s: Flow, s': Flow) {
    && s'.feeds == s.feeds && s'.running == s.running && (s'.row.Some? <==> s.row.Some?)
    && (s.row.Some? ==> s'.row.value == s.row.value.(jobId := s'.row.value.jobId))
  }

  lemma RegisterKeeps(s: Flow, kind: Kind, fields: Option<Fields>, f: Faults)
    ensures SameLife(s, Register(s, kind, fields, f).0)
  {
  }

  lemma ReregisterKeeps(s: Flow, nodes: seq<Node>, f: Faults)
    ensures SameLife(s, Reregister(s, nodes, f).0)
  {
  }

  lemma SaveKeeps(s: Flow, nodes: seq<Node>, f: Faults)
    requires s.row.Some?
    ensures var s' := Save(s, nodes, f).0;
            s'.row.Some? && s'.row.value.nodes == nodes && s'.feeds == s.feeds && s'.running == s.running
  {
    ReregisterKeeps(SetNodes(s, nodes), nodes, f);
  }

  lemma ActivatedKeeps(s: Flow, runnable: bool, f: Faults)
    requires s.row.Some?
    ensures var s' := Activated(s, runnable, f).0;
            s'.row.Some? && s'.row.value.nodes == s.row.value.nodes && s'.feeds == s.feeds && s'.running == s.running
  {
    var node := FirstTrigger(s.row.value.nodes);
    if node.Some? && node.value.Trigger? {
      RegisterKeeps(SetActive(s, true), node.value.kind, ActivationFields(node.value.data), f);
    }
  }

  lemma SaveQuiet(s: Flow, nodes: seq<Node>, f: Faults)
    requires s.row.Some? && Quiet(s) && f.rollbackJob
    ensures Quiet(Save(s, nodes, f).0)
  {
    ReregisterKeeps(SetNodes(s, nodes), nodes, f);
  }

  /** Standing a workflow down leaves a job behind exactly when the job store refuses the
      removal and the flag is cleared all the same. */
  lemma RollbackQuietExactly(s: Flow, f: Faults)
    requires s.Active()
    ensures Quiet(Rollback(s, f)) <==> f.rollbackJob || s.job.None? || !f.rollbackRow
  {
  }

  /** Arming this leaves a job behind when its id cannot be stored and the undo fails. */
  predicate JobStuck(wanted: Wanted, f: Faults) {
    wanted.Arm? && wanted.reg.Job? && f.arm && !f.writeJobId && !f.undoJob
  }

  /** What an activation of this graph registers. */
  function ActivationWants(nodes: seq<Node>): Wanted {
    match FirstTrigger(nodes)
    case Some(Trigger(kind, data)) => WantedBy(kind, ActivationFields(data))
    case _ => Nothing
  }

  /** A re-registration that ends before the old one is torn down. */
  predicate NotTornDown(nodes: seq<Node>, f: Faults) {
    FirstTrigger(nodes).None? || FirstTrigger(nodes).value.Action? || !f.apiKey || !f.unregisterJob
  }

  /** Whether saving this graph ends with the flag cleared and a job nobody could remove. */
  predicate SaveLeavesJob(s: Flow, nodes: seq<Node>, f: Faults) {
    && s.Active() && TriggerConfig(nodes) != TriggerConfig(s.row.value.nodes) && !f.rollbackJob && f.rollbackRow
    && if NotTornDown(nodes, f) then s.job.Some? else JobStuck(GraphWants(nodes), f)
  }

  /** A delete that gets as far as the row: present, not running, every feed let go, the write stored. */
  predicate DeleteGoesThrough(s: Flow, f: Faults) {
    !s.running && s.row.Some? && s.feeds <= f.released && f.writeRow
  }

  predicate DeleteLeavesJob(s: Flow, f: Faults) {
    DeleteGoesThrough(s, f) && s.Active() && s.job.Some? && !f.deleteJob
  }

  /** A request that leaves a job without an active row, told from the state before it. */
  predicate LeavesJob(s: Flow, op: Op) {
    match op
    case Activate(runnable, f) =>
      s.row.Some? && !s.Active() && f.apiKey && runnable && TriggerCount(s.row.value.nodes) == 1 && f.writeRow &&
      JobStuck(ActivationWants(s.row.value.nodes), f) && !f.rollbackJob && f.rollbackRow
    case Update(nodes, valid, f) => nodes.Some? && valid && f.writeRow && SaveLeavesJob(s, nodes.value, f)
    case Replace(graph, valid, f) => valid && TriggerCount(graph) == 1 && f.writeRow && SaveLeavesJob(s, graph, f)
    case Delete(f) => DeleteLeavesJob(s, f)
    case _ => false
  }

  lemma SaveQuietExactly(s: Flow, nodes: seq<Node>, f: Faults)
    requires s.row.Some? && Quiet(s)
    ensures Quiet(Save(s, nodes, f).0) <==> !SaveLeavesJob(s, nodes, f)
  {
    ReregisterKeeps(SetNodes(s, nodes), nodes, f);
    var armed := Reregister(SetNodes(s, nodes), nodes, f).0;
    if armed.Active() { RollbackQuietExactly(armed, f); }
  }

  lemma ActivatedQuietExactly(s: Flow, runnable: bool, f: Faults)
    requires Quiet(s)
    ensures Quiet(Activated(s, runnable, f).0) <==> !LeavesJob(s, Activate(runnable, f))
  {
    if s.row.Some? {
      var node := FirstTrigger(s.row.value.nodes);
      FirstTriggerIsOne(s.row.value.nodes);
      if node.Some? && node.value.Trigger? {
        RegisterKeeps(SetActive(s, true), node.value.kind, ActivationFields(node.value.data), f);
      }
    }
  }

  lemma {:induction false} FirstTriggerIsOne(nodes: seq<Node>)
    ensures TriggerCount(nodes) > 0 <==> FirstTrigger(nodes).Some?
    ensures FirstTrigger(nodes).Some? ==> FirstTrigger(nodes).value.Trigger?
  {
    if nodes != [] { FirstTriggerIsOne(nodes[1..]); }
  }

  lemma FeedsLetGo(feeds: set<Feed>, released: set<Feed>)
    ensures feeds - released == {} <==> feeds <= released
  {
    if feeds - released == {} {
      assert forall feed :: feed in feeds ==> feed !in feeds - released;
    }
  }

  /** Deleting leaves a job behind exactly when it gets through to an active workflow that has one
      and the job store refuses the removal: the failure is swallowed. */
  lemma DeleteQuietExactly(s: Flow, f: Faults)
    requires Quiet(s)
    ensures Quiet(Deleted(s, f).0) <==> !DeleteLeavesJob(s, f)
    ensures Deleted(s, f).1 == Done <==> DeleteGoesThrough(s, f)
  {
    FeedsLetGo(s.feeds, f.released);
  }

  /** Any step over a quiet workflow leaves a job without an active row exactly when the conditions
      listed above meet, whatever else fails. */
  lemma QuietExactly(s: Flow, op: Op)
    requires Quiet(s)
    ensures Quiet(Apply(s, op).0) <==> !LeavesJob(s, op)
  {
    match op
    case Activate(runnable, f) => ActivatedQuietExactly(s, runnable, f);
    case Update(nodes, valid, f) =>
      if s.row.Some? { SaveQuietExactly(s, if nodes.Some? then nodes.value else s.row.value.nodes, f); }
    case Replace(graph, valid, f) => if s.row.Some? { SaveQuietExactly(s, graph, f); }
    case Delete(f) => DeleteQuietExactly(s, f);
    case _ =>
  }

  lemma QuietStep(s: Flow, op: Op)
    requires Quiet(s) && RemovalsSucceed(op)
    ensures Quiet(Apply(s, op).0) && !LeavesJob(s, op)
  {
    QuietExactly(s, op);
  }

  /** No step along the run leaves a job. */
  predicate NothingLeft(s: Flow, ops: seq<Op>)
    decreases ops
  {
    ops == [] || (!LeavesJob(s, ops[0]) && NothingLeft(Apply(s, ops[0]).0, ops[1..]))
  }

  predicate QuietThroughout(s: Flow, ops: seq<Op>)
    decreases ops
  {
    Quiet(s) && (ops == [] || QuietThroughout(Apply(s, ops[0]).0, ops[1..]))
  }

  /** Over every run, whatever fails, off means disarmed all along exactly when no step leaves a job. */
  lemma {:induction false} OffMeansDisarmed(s: Flow, ops: seq<Op>)
    requires Quiet(s)
    ensures QuietThroughout(s, ops) <==> NothingLeft(s, ops)
    ensures NothingLeft(s, ops) ==> Quiet(Run(s, ops))
    decreases ops
  {
    if ops != [] {
      var s' := Apply(s, ops[0]).0;
      QuietExactly(s, ops[0]);
      if Quiet(s') { OffMeansDisarmed(s', ops[1..]); }
    }
  }

  /** A job is left only by a silent removal that fails. */
  lemma {:induction false} WorkingRemovalsLeaveNothing(s: Flow, ops: seq<Op>)
    requires Quiet(s) && forall op | op in ops :: RemovalsSucceed(op)
    ensures NothingLeft(s, ops)
    decreases ops
  {
    if ops != [] {
      assert ops[0] in ops;
      QuietStep(s, ops[0]);
      WorkingRemovalsLeaveNothing(Apply(s, ops[0]).0, ops[1..]);
    }
  }

  predicate Matches(s: Flow, wanted: Wanted) {
    && s.job == (if wanted.Arm? && wanted.reg.Job? then Some(wanted.reg.args) else None)
    && s.alert == (if wanted.Arm? && wanted.reg.Alert? then Some(wanted.reg.args) else None)
    && s.watch == (if wanted.Arm? && wanted.reg.Watch? then Some(wanted.reg.args) else None)
  }

  /** Registering from scratch arms exactly what the trigger asks for, or raises. */
  lemma RegisterArms(s: Flow, kind: Kind, fields: Option<Fields>, f: Faults)
    requires s.Disarmed() && !Register(s, kind, fields, f).1
    ensures Matches(Register(s, kind, fields, f).0, WantedBy(kind, fields))
  {
  }

  /** A registration that raises touches nothing but the job: the one before is gone when it was cleared
      already, and one whose id cannot be stored is there when its undo fails. */
  lemma RegisterFails(s: Flow, kind: Kind, fields: Option<Fields>, f: Faults)
    requires Register(s, kind, fields, f).1
    ensures var s', wanted := Register(s, kind, fields, f).0, WantedBy(kind, fields);
            && s'.row == s.row && s'.alert == s.alert && s'.watch == s.watch
            && s'.job == (if !(wanted.Arm? && wanted.reg.Job?) then s.job
                          else if !f.arm then (if f.clearJob then None else s.job)
                          else if f.undoJob then None else Some(wanted.reg.args))
  {
  }

  /** A node whose data is falsy but no object cannot be activated unless it is a webhook, although a
      save reads it as one without fields. */
  lemma FalsyDataRaises(kind: Kind, rest: seq<Node>)
    requires kind != Webhook
    ensures var nodes := [Trigger(kind, Falsy)] + rest;
            ActivationWants(nodes) == Malformed && GraphWants(nodes) == WantedBy(kind, Some(map[]))
  {
  }

  /** A save that changes the configuration either arms exactly what the new graph asks for,
      or leaves nothing armed. */
  lemma RearmedOrStoodDown(s: Flow, nodes: seq<Node>, f: Faults)
    requires s.Active()
    requires TriggerConfig(nodes) != TriggerConfig(s.row.value.nodes)
    ensures var (s', reply) := Save(s, nodes, f);
            s'.row.Some? && s'.row.value.nodes == nodes &&
            if reply == Done then s'.Active() && Matches(s', GraphWants(nodes))
            else reply == NeedsReactivate && (f.rollbackJob ==> s'.Disarmed())
  {
    var stored := SetNodes(s, nodes);
    ReregisterKeeps(stored, nodes, f);
    var node := FirstTrigger(nodes);
    if !Reregister(stored, nodes, f).1 {
      RegisterArms(Unregister(stored, f).0, node.value.kind, FieldsOf(node.value.data), f);
    }
  }

  lemma FreshAfterSave(s: Flow, nodes: seq<Node>, f: Faults)
    requires s.row.Some? && Quiet(s) && Fresh(s) && f.rollbackJob
    requires s.Active() && TriggerConfig(nodes) != TriggerConfig(s.row.value.nodes)
    ensures Fresh(Save(s, nodes, f).0)
  {
    RearmedOrStoodDown(s, nodes, f);
  }

  /** A save of any graph over a workflow armed as its graph asks leaves it armed as the new
      graph asks, exactly when the compared configuration changed or the first trigger asks
      for the same registration as before. */
  lemma SaveFreshExactly(s: Flow, nodes: seq<Node>, f: Faults)
    requires s.Active() && Fresh(s) && !s.Disarmed() && f.rollbackJob
    ensures Fresh(Save(s, nodes, f).0) <==>
            TriggerConfig(nodes) != TriggerConfig(s.row.value.nodes) ||
            GraphWants(nodes) == GraphWants(s.row.value.nodes)
  {
    if TriggerConfig(nodes) != TriggerConfig(s.row.value.nodes) {
      FreshAfterSave(s, nodes, f);
    }
  }

  /** A save after which something armed is not what the stored graph asks for, although it was: the
      registrations are left alone because the comparison sees no change, or the old job outlives a
      re-registration that failed and its rollback. */
  predicate StaleSave(s: Flow, nodes: seq<Node>, f: Faults) {
    && s.row.Some? && GraphWants(nodes) != GraphWants(s.row.value.nodes)
    && if s.Active() && TriggerConfig(nodes) != TriggerConfig(s.row.value.nodes)
       then NotTornDown(nodes, f) && !f.rollbackJob && s.job.Some?
       else !s.Disarmed()
  }

  /** A delete that leaves something armed. */
  predicate StaleDelete(s: Flow, f: Faults) {
    DeleteGoesThrough(s, f) && if s.Active() then s.job.Some? && !f.deleteJob else !s.Disarmed()
  }

  /** The same for a request, told from the state before it. */
  predicate Stale(s: Flow, op: Op) {
    match op
    case Update(nodes, valid, f) => nodes.Some? && valid && f.writeRow && StaleSave(s, nodes.value, f)
    case Replace(graph, valid, f) => valid && TriggerCount(graph) == 1 && f.writeRow && StaleSave(s, graph, f)
    case Delete(f) => StaleDelete(s, f)
    case _ => false
  }

  lemma FreshAfterTearDown(stored: Flow, nodes: seq<Node>, f: Faults)
    requires stored.row.Some? && stored.row.value.nodes == nodes && !NotTornDown(nodes, f)
    ensures var (armed, raised) := Reregister(stored, nodes, f);
            Fresh(if raised then Rollback(armed, f) else armed)
  {
    FirstTriggerIsOne(nodes);
    ReregisterKeeps(stored, nodes, f);
  }

  lemma SaveStaleExactly(s: Flow, nodes: seq<Node>, f: Faults)
    requires s.row.Some? && Fresh(s)
    ensures Fresh(Save(s, nodes, f).0) <==> !StaleSave(s, nodes, f)
  {
    var stored := SetNodes(s, nodes);
    if s.Active() && TriggerConfig(nodes) != TriggerConfig(s.row.value.nodes) {
      if NotTornDown(nodes, f) {
        assert Save(s, nodes, f).0 == Rollback(stored, f);
      } else {
        FreshAfterTearDown(stored, nodes, f);
      }
    } else {
      assert Save(s, nodes, f).0 == stored;
    }
  }

  lemma RollbackFresh(s: Flow, f: Faults)
    ensures Fresh(s) ==> Fresh(Rollback(s, f))
  {
  }

  /** What a node asks for when it is activated is what the graph asks for, or raises. */
  lemma RegisterFresh(s: Flow, kind: Kind, data: Data, f: Faults)
    requires Fresh(s) && s.row.Some? && FirstTrigger(s.row.value.nodes) == Some(Trigger(kind, data))
    ensures Fresh(Register(s, kind, ActivationFields(data), f).0)
    ensures Fresh(Rollback(Register(s, kind, ActivationFields(data), f).0, f))
  {
    RollbackFresh(Register(s, kind, ActivationFields(data), f).0, f);
  }

  lemma ActivatedFresh(s: Flow, runnable: bool, f: Faults)
    requires Fresh(s)
    ensures Fresh(Activated(s, runnable, f).0)
  {
    if s.row.Some? {
      var node := FirstTrigger(s.row.value.nodes);
      FirstTriggerIsOne(s.row.value.nodes);
      if node.Some? && node.value.Trigger? {
        RegisterFresh(SetActive(s, true), node.value.kind, node.value.data, f);
      }
    }
  }

  lemma DeletedFresh(s: Flow, f: Faults)
    requires Fresh(s)
    ensures Fresh(Deleted(s, f).0) <==> !StaleDelete(s, f)
  {
    FeedsLetGo(s.feeds, f.released);
  }

  lemma DeactivatedFresh(s: Flow, f: Faults)
    requires Fresh(s)
    ensures Fresh(Deactivated(s, f).0)
  {
  }

  /** From any state in which whatever is armed is what the stored graph asks for, a step ends that
      exactly when the conditions listed above meet, whatever fails and whatever graph is saved. */
  lemma FreshExactly(s: Flow, op: Op)
    requires Fresh(s)
    ensures Fresh(Apply(s, op).0) <==> !Stale(s, op)
  {
    match op
    case Activate(runnable, f) => ActivatedFresh(s, runnable, f);
    case Update(nodes, valid, f) =>
      if s.row.Some? { SaveStaleExactly(s, if nodes.Some? then nodes.value else s.row.value.nodes, f); }
    case Replace(graph, valid, f) => if s.row.Some? { SaveStaleExactly(s, graph, f); }
    case Deactivate(f) => DeactivatedFresh(s, f);
    case Delete(f) => DeletedFresh(s, f);
    case BeginRun(_) =>
    case Subscribe(_) =>
    case EndRun =>
  }

  /** No step along the run does. */
  predicate NeverStale(s: Flow, ops: seq<Op>)
    decreases ops
  {
    ops == [] || (!Stale(s, ops[0]) && NeverStale(Apply(s, ops[0]).0, ops[1..]))
  }

  predicate FreshThroughout(s: Flow, ops: seq<Op>)
    decreases ops
  {
    Fresh(s) && (ops == [] || FreshThroughout(Apply(s, ops[0]).0, ops[1..]))
  }

  /** Over every run, with graphs of any number of triggers, whatever is armed was built from the
      graph stored at the time, all along, exactly when no step on the way is one of those. */
  lemma {:induction false} ArmedFromTheStoredGraph(s: Flow, ops: seq<Op>)
    requires Fresh(s)
    ensures FreshThroughout(s, ops) <==> NeverStale(s, ops)
    ensures NeverStale(s, ops) ==> Fresh(Run(s, ops))
    decreases ops
  {
    if ops != [] {
      var s' := Apply(s, ops[0]).0;
      FreshExactly(s, ops[0]);
      if Fresh(s') { ArmedFromTheStoredGraph(s', ops[1..]); }
    }
  }

  predicate SingleTriggerSave(op: Op) {
    op.Update? && op.nodes.Some? ==> TriggerCount(op.nodes.value) <= 1
  }

  predicate SingleTriggerRow(s: Flow) { s.row.Some? ==> TriggerCount(s.row.value.nodes) <= 1 }

  /** Between graphs with at most one trigger each no save is stale. */
  lemma SingleTriggerNotStale(s: Flow, nodes: seq<Node>, f: Faults)
    requires s.row.Some? && Quiet(s) && Fresh(s) && f.rollbackJob
    requires TriggerCount(s.row.value.nodes) <= 1 && TriggerCount(nodes) <= 1
    ensures !StaleSave(s, nodes, f)
  {
    if s.Active() && !s.Disarmed() && TriggerConfig(nodes) == TriggerConfig(s.row.value.nodes) {
      SameConfigSameRegistration(s.row.value.nodes, nodes);
    }
  }

  lemma SingleTriggerStep(s: Flow, op: Op)
    requires Quiet(s) && Fresh(s) && SingleTriggerRow(s) && RemovalsSucceed(op) && SingleTriggerSave(op)
    ensures !Stale(s, op) && SingleTriggerRow(Apply(s, op).0)
  {
    if s.row.Some? {
      match op
      case Activate(runnable, f) => ActivatedKeeps(s, runnable, f);
      case Update(nodes, valid, f) =>
        var stored := if nodes.Some? then nodes.value else s.row.value.nodes;
        SingleTriggerNotStale(s, stored, f);
        SaveKeeps(s, stored, f);
      case Replace(graph, valid, f) =>
        if TriggerCount(graph) == 1 { SingleTriggerNotStale(s, graph, f); }
        SaveKeeps(s, graph, f);
      case _ =>
    }
  }

  /** So a run that never stores a second trigger node is fresh all along. */
  lemma {:induction false} OneTriggerNeverStale(s: Flow, ops: seq<Op>)
    requires Quiet(s) && Fresh(s) && SingleTriggerRow(s)
    requires forall op | op in ops :: RemovalsSucceed(op) && SingleTriggerSave(op)
    ensures NothingLeft(s, ops) && NeverStale(s, ops) && Fresh(Run(s, ops)) && SingleTriggerRow(Run(s, ops))
    decreases ops
  {
    if ops != [] {
      assert ops[0] in ops;
      QuietStep(s, ops[0]);
      FreshExactly(s, ops[0]);
      SingleTriggerStep(s, ops[0]);
      OneTriggerNeverStale(Apply(s, ops[0]).0, ops[1..]);
    }
  }

  /** At most one kind of registration at a time. */
  predicate OneKind(s: Flow) {
    (s.job.None? || s.alert.None?) && (s.job.None? || s.watch.None?) && (s.alert.None? || s.watch.None?)
  }

  lemma RegisterOneKind(s: Flow, kind: Kind, fields: Option<Fields>, f: Faults)
    requires s.Disarmed()
    ensures OneKind(Register(s, kind, fields, f).0)
  {
  }

  lemma ReregisterOneKind(s: Flow, nodes: seq<Node>, f: Faults)
    requires OneKind(s)
    ensures OneKind(Reregister(s, nodes, f).0)
  {
    var node := FirstTrigger(nodes);
    if node.Some? && node.value.Trigger? && f.unregisterJob {
      RegisterOneKind(Unregister(s, f).0, node.value.kind, FieldsOf(node.value.data), f);
    }
  }

  lemma SaveOneKind(s: Flow, nodes: seq<Node>, f: Faults)
    requires s.row.Some? && OneKind(s)
    ensures OneKind(Save(s, nodes, f).0)
  {
    ReregisterOneKind(SetNodes(s, nodes), nodes, f);
  }

  /** Something is armed already, of another kind than what is asked for. */
  predicate Leftover(s: Flow, wanted: Wanted) {
    && wanted.Arm?
    && ((s.job.Some? && !wanted.reg.Job?) || (s.alert.Some? && !wanted.reg.Alert?) ||
        (s.watch.Some? && !wanted.reg.Watch?))
  }

  /** An activation that gets as far as arming something: the row is there and off, the gates let it
      through, and no step of the registration fails. */
  predicate ArmsOnActivation(s: Flow, runnable: bool, f: Faults) {
    && s.row.Some? && !s.Active() && f.apiKey && runnable && TriggerCount(s.row.value.nodes) == 1 && f.writeRow
    && var wanted := ActivationWants(s.row.value.nodes); wanted.Arm? && f.arm && (wanted.reg.Job? ==> f.writeJobId)
  }

  predicate ArmsASecond(s: Flow, op: Op) {
    op.Activate? && ArmsOnActivation(s, op.runnable, op.f) && Leftover(s, ActivationWants(s.row.value.nodes))
  }

  lemma ActivationGuards(s: Flow, runnable: bool, f: Faults)
    requires s.row.Some?
    ensures Activated(s, runnable, f).1 == Done && ActivationWants(s.row.value.nodes).Arm? <==>
            ArmsOnActivation(s, runnable, f)
  {
    FirstTriggerIsOne(s.row.value.nodes);
  }

  lemma ActivatedOneKindExactly(s: Flow, runnable: bool, f: Faults)
    requires OneKind(s)
    ensures OneKind(Activated(s, runnable, f).0) <==> !ArmsASecond(s, Activate(runnable, f))
  {
    if s.row.Some? { ActivationGuards(s, runnable, f); }
  }

  /** Any step from any state with one kind, quiet or not and whatever fails, ends with two kinds
      exactly when it is an activation that goes through over a leftover of another kind. */
  lemma OneKindExactly(s: Flow, op: Op)
    requires OneKind(s)
    ensures OneKind(Apply(s, op).0) <==> !ArmsASecond(s, op)
  {
    match op
    case Activate(runnable, f) => ActivatedOneKindExactly(s, runnable, f);
    case Update(nodes, valid, f) =>
      if s.row.Some? { SaveOneKind(s, if nodes.Some? then nodes.value else s.row.value.nodes, f); }
    case Replace(graph, valid, f) => if s.row.Some? { SaveOneKind(s, graph, f); }
    case Deactivate(f) =>
    case Delete(f) =>
    case BeginRun(_) =>
    case Subscribe(_) =>
    case EndRun =>
  }

  /** Over every run in which no step leaves a job, with graphs of any number of triggers, at most
      one kind is armed. */
  lemma {:induction false} AtMostOneKind(s: Flow, ops: seq<Op>)
    requires Quiet(s) && OneKind(s) && NothingLeft(s, ops)
    ensures OneKind(Run(s, ops))
    decreases ops
  {
    if ops != [] {
      QuietExactly(s, ops[0]);
      OneKindExactly(s, ops[0]);
      AtMostOneKind(Apply(s, ops[0]).0, ops[1..]);
    }
  }

  lemma RolledBackEdit(s: Flow, nodes: seq<Node>, f: Faults)
    requires s.Active() && s.alert.None? && s.watch.None? && TriggerConfig(s.row.value.nodes) != TriggerConfig(nodes)
    requires !f.apiKey && f.writeRow && !f.rollbackJob && f.rollbackRow
    ensures Updated(s, Some(nodes), true, f).0 == SetActive(SetNodes(s, nodes), false)
  {
    assert Reregister(SetNodes(s, nodes), nodes, f) == (SetNodes(s, nodes), true);
  }

  lemma AlertOnTop(s: Flow, alert: Fields, f: Faults)
    requires s.row.Some? && !s.Active() && s.row.value.nodes == [Trigger(PriceAlert, Dict(alert))]
    requires f.apiKey && f.writeRow && f.arm
    ensures Activated(s, true, f).0.job == s.job && Activated(s, true, f).0.alert.Some?
  {
    var nodes := s.row.value.nodes;
    assert nodes[1..] == [] && TriggerCount(nodes) == 1;
  }

  /** A silent removal that fails while an edit is rolled back, and the next activation: a job and
      an alert of one workflow. */
  lemma LeftoverThenActivation(job: Arguments, before: seq<Node>, alert: Fields, f1: Faults, f2: Faults)
    requires TriggerConfig(before) != TriggerConfig([Trigger(PriceAlert, Dict(alert))])
    requires !f1.apiKey && f1.writeRow && !f1.rollbackJob && f1.rollbackRow
    requires f2.apiKey && f2.writeRow && f2.arm
    ensures var s := Flow(Some(Row(true, before, true)), Some(job), None, None, {}, false);
            var s' := Run(s, [Update(Some([Trigger(PriceAlert, Dict(alert))]), true, f1), Activate(true, f2)]);
            Quiet(s) && OneKind(s) && s'.job == Some(job) && s'.alert.Some?
  {
    var nodes := [Trigger(PriceAlert, Dict(alert))];
    var s := Flow(Some(Row(true, before, true)), Some(job), None, None, {}, false);
    RolledBackEdit(s, nodes, f1);
    AlertOnTop(Flow(Some(Row(false, nodes, true)), Some(job), None, None, {}, false), alert, f2);
    RunTwo(s, Update(Some(nodes), true, f1), Activate(true, f2));
  }

  lemma RunTwo(s: Flow, first: Op, second: Op)
    ensures Run(s, [first, second]) == Apply(Apply(s, first).0, second).0
  {
    var s1 := Apply(s, first).0;
    assert [first, second][1..] == [second] && [second][1..] == [];
    assert Run(s1, [second]) == Run(Apply(s1, second).0, []);
  }

  /** An editor save may hold two triggers, and then an old registration can survive it. */
  lemma SecondTriggerGoesStale(f: Faults) returns (s: Flow, edited: seq<Node>)
    requires f.apiKey && f.writeRow && f.arm && f.writeJobId
    ensures Quiet(s) && Fresh(s) && SingleTriggerRow(s) && TriggerCount(edited) == 2
    ensures !Fresh(Apply(s, Update(Some(edited), true, f)).0)
  {
    var none: Fields, price: Fields := map[], map["price" := Number(100)];
    SecondTriggerHidesAChange(PriceAlert, price, none);
    var nodes := [Trigger(PriceAlert, Dict(price))];
    edited := [Trigger(PriceAlert, Dict(none)), Trigger(PriceAlert, Dict(price))];
    s := Flow(Some(Row(true, nodes, false)), None, Some(Args(PriceAlert, price, ALERT_FIELDS)), None, {}, false);
    assert ALERT_FIELDS[3] == "price";
    assert Args(PriceAlert, price, ALERT_FIELDS)[3] != Args(PriceAlert, none, ALERT_FIELDS)[3];
    assert Apply(s, Update(Some(edited), true, f)).0 == SetNodes(s, edited);
  }

  /** Armed with exactly what the stored graph asks for, nothing missing. */
  predicate AsWanted(s: Flow) { s.Active() && Matches(s, GraphWants(s.row.value.nodes)) }

  /** An activation answered with success arms what the graph asks for. */
  lemma ActivationArms(s: Flow, runnable: bool, f: Faults)
    requires Quiet(s) && Activated(s, runnable, f).1 == Done
    ensures AsWanted(Activated(s, runnable, f).0)
  {
  }

  /** Two graphs that ask for the same registration, or both for none. */
  predicate SameRegistration(a: Wanted, b: Wanted) { a == b || (!a.Arm? && !b.Arm?) }

  /** A save answered with success over an armed workflow leaves it armed as the new graph asks,
      exactly when the comparison sees a change or the graphs ask for the same. */
  lemma SaveArms(s: Flow, nodes: seq<Node>, f: Faults)
    requires AsWanted(s) && Save(s, nodes, f).1 == Done
    ensures AsWanted(Save(s, nodes, f).0) <==>
            TriggerConfig(nodes) != TriggerConfig(s.row.value.nodes) ||
            SameRegistration(GraphWants(nodes), GraphWants(s.row.value.nodes))
  {
    if TriggerConfig(nodes) != TriggerConfig(s.row.value.nodes) {
      RearmedOrStoodDown(s, nodes, f);
    } else {
      assert Save(s, nodes, f).0 == SetNodes(s, nodes);
    }
  }

  lemma SingleTriggerArms(before: seq<Node>, after: seq<Node>)
    requires TriggerCount(before) <= 1 && TriggerCount(after) <= 1 && TriggerConfig(before) == TriggerConfig(after)
    ensures SameRegistration(GraphWants(after), GraphWants(before))
  {
    if GraphWants(before).Arm? {
      SameConfigSameRegistration(before, after);
    } else if GraphWants(after).Arm? {
      SameConfigSameRegistration(after, before);
    }
  }

  /** Deactivation answered with success leaves nothing behind whatever state it found; one
      that failed half-way still reads as active, so it can be asked for again. */
  lemma DeactivationOutcome(s: Flow, f: Faults)
    ensures Deactivated(s, f).1 == Done ==>
              var s' := Deactivated(s, f).0; s'.row.Some? && !s'.Active() && s'.Disarmed() && s'.feeds == {}
    ensures Deactivated(s, f).1 == Failed ==> Deactivated(s, f).0.Active()
  {
  }

  // ---- When each request goes through ----

  /** The registration this asks for does not raise. */
  predicate Registers(wanted: Wanted, f: Faults) {
    match wanted
    case Nothing => true
    case Malformed => false
    case Arm(reg) => f.arm && (reg.Job? ==> f.writeJobId)
  }

  /** A deactivation goes through exactly when the workflow is active, no run holds it, every feed is
      let go, the job can be removed and the row written; every other answer has its one reason. */
  lemma DeactivateAnswers(s: Flow, f: Faults)
    ensures var (s', reply) := Deactivated(s, f);
            && (reply == Running <==> s.running)
            && (reply == NotFound <==> !s.running && s.row.None?)
            && (reply == FeedConnected <==> !s.running && s.row.Some? && !(s.feeds <= f.released))
            && (reply == AlreadyInactive <==> !s.running && s.row.Some? && s.feeds <= f.released && !s.Active())
            && (reply == Done <==> s.Active() && !s.running && s.feeds <= f.released && f.unregisterJob && f.writeRow)
            && (reply == Failed <==>
                  s.Active() && !s.running && s.feeds <= f.released && !(f.unregisterJob && f.writeRow))
            && (reply == Done ==> s'.row.value == Row(false, s.row.value.nodes, s.row.value.jobId && !f.writeJobId))
            && (reply == Failed && !f.unregisterJob ==> s' == s.(feeds := {}))
            && (reply == Failed && f.unregisterJob ==> s'.Disarmed() && s'.Active() && s'.feeds == {})
  {
    FeedsLetGo(s.feeds, f.released);
  }

  /** An activation goes through exactly when the row is there and off, the gates let it through and
      what its one trigger asks for, which is nothing for a webhook, can be registered. */
  lemma ActivateAnswers(s: Flow, runnable: bool, f: Faults)
    ensures var (s', reply) := Activated(s, runnable, f);
            var gates := s.row.Some? && f.apiKey && runnable && TriggerCount(s.row.value.nodes) == 1;
            && (reply == NotFound <==> s.row.None?) && (reply == AlreadyActive <==> s.Active())
            && (reply == Refused <==> s.row.Some? && !s.Active() && !gates)
            && (reply == Done <==>
                  gates && !s.Active() && f.writeRow && Registers(ActivationWants(s.row.value.nodes), f))
            && (reply == Failed <==>
                  gates && !s.Active() && !(f.writeRow && Registers(ActivationWants(s.row.value.nodes), f)))
            && (reply == Done ==> s'.Active() && s'.row.value.nodes == s.row.value.nodes)
            && (reply == Failed && !f.writeRow ==> s' == s)
            && s'.feeds == s.feeds && s'.running == s.running
  {
    if s.row.Some? {
      FirstTriggerIsOne(s.row.value.nodes);
      ActivatedKeeps(s, runnable, f);
    }
  }

  /** Saving this graph cannot keep the workflow armed. */
  predicate StandsDown(s: Flow, nodes: seq<Node>, f: Faults) {
    && s.Active() && TriggerConfig(nodes) != TriggerConfig(s.row.value.nodes)
    && (NotTornDown(nodes, f) || !Registers(GraphWants(nodes), f))
  }

  lemma SaveAnswers(s: Flow, nodes: seq<Node>, f: Faults)
    requires s.row.Some?
    ensures var (s', reply) := Save(s, nodes, f);
            && reply == (if StandsDown(s, nodes, f) then NeedsReactivate else Done)
            && s'.row.Some? && s'.row.value.nodes == nodes && s'.feeds == s.feeds && s'.running == s.running
            && (!s.Active() || TriggerConfig(nodes) == TriggerConfig(s.row.value.nodes) ==>
                  s' == s.(row := Some(s.row.value.(nodes := nodes))))
            && (reply == NeedsReactivate ==> (s'.Active() <==> !f.rollbackRow))
            && (reply == Done ==> (s'.Active() <==> s.Active()))
  {
    SaveKeeps(s, nodes, f);
    FirstTriggerIsOne(nodes);
    if s.Active() && TriggerConfig(nodes) != TriggerConfig(s.row.value.nodes) {
      ReregisterAnswers(SetNodes(s, nodes), nodes, f);
    }
  }

  lemma ReregisterAnswers(s: Flow, nodes: seq<Node>, f: Faults)
    requires s.row.Some?
    ensures Reregister(s, nodes, f).1 <==> NotTornDown(nodes, f) || !Registers(GraphWants(nodes), f)
    ensures Reregister(s, nodes, f).0.Active() <==> s.Active()
  {
    FirstTriggerIsOne(nodes);
    ReregisterKeeps(s, nodes, f);
  }

  /** When an edit and a replacement are refused, when they stand the workflow down, and when they go
      through; an edit without a graph always goes through over a row that can be written. */
  lemma UpdateAnswers(s: Flow, nodes: Option<seq<Node>>, valid: bool, f: Faults)
    ensures var (s', reply) := Updated(s, nodes, valid, f);
            var stored := nodes.None? || valid;
            && (reply == Refused <==> nodes.Some? && !valid)
            && (reply == NotFound <==> stored && (s.row.None? || !f.writeRow))
            && (reply == NeedsReactivate <==>
                  stored && s.row.Some? && f.writeRow && nodes.Some? && StandsDown(s, nodes.value, f))
            && (reply == Done <==>
                  stored && s.row.Some? && f.writeRow && (nodes.None? || !StandsDown(s, nodes.value, f)))
  {
    if s.row.Some? { SaveAnswers(s, if nodes.Some? then nodes.value else s.row.value.nodes, f); }
  }

  lemma ReplaceAnswers(s: Flow, graph: seq<Node>, valid: bool, f: Faults)
    ensures var (s', reply) := Replaced(s, graph, valid, f);
            var fits := valid && TriggerCount(graph) == 1;
            && (reply == NotFound <==> s.row.None?) && (reply == Refused <==> s.row.Some? && !fits)
            && (reply == Failed <==> s.row.Some? && fits && !f.writeRow)
            && (reply == NeedsReactivate <==> s.row.Some? && fits && f.writeRow && StandsDown(s, graph, f))
            && (reply == Done <==> s.row.Some? && fits && f.writeRow && !StandsDown(s, graph, f))
  {
    if s.row.Some? { SaveAnswers(s, graph, f); }
  }

  /** A delete goes through exactly when no run holds the workflow, every feed is let go and the row
      can be deleted; of an active one it takes alert and watch away before that, and the job if it
      can. */
  lemma DeleteAnswers(s: Flow, f: Faults)
    ensures var (s', reply) := Deleted(s, f);
            && (reply == Running <==> s.running) && (reply == NotFound <==> !s.running && s.row.None?)
            && (reply == FeedConnected <==> !s.running && s.row.Some? && !(s.feeds <= f.released))
            && (reply == Done <==> DeleteGoesThrough(s, f))
            && (reply == Failed <==> !s.running && s.row.Some? && s.feeds <= f.released && !f.writeRow)
            && (reply in {Done, Failed} && s.Active() ==>
                  s'.alert.None? && s'.watch.None? && s'.job == if f.deleteJob then None else s.job)
            && (reply in {Done, Failed} && !s.Active() ==>
                  s'.job == s.job && s'.alert == s.alert && s'.watch == s.watch)
            && (reply == Done ==> s'.row.None?) && (reply == Failed ==> s'.row == s.row)
  {
    FeedsLetGo(s.feeds, f.released);
  }

  /** A run starts exactly when none runs and the row is there and runnable; only a run subscribes. */
  lemma RunAnswers(s: Flow, runnable: bool, feed: Feed)
    ensures Apply(s, BeginRun(runnable)).0.running <==> s.running || (s.row.Some? && runnable)
    ensures Apply(s, BeginRun(runnable)).0 == s.(running := Apply(s, BeginRun(runnable)).0.running)
    ensures Apply(s, Subscribe(feed)).0 == if s.running then s.(feeds := s.feeds + {feed}) else s
    ensures Apply(s, EndRun).0 == s.(running := false)
    ensures Apply(s, BeginRun(runnable)).1 == Done <==> !s.running && s.row.Some? && runnable
    ensures s.running <==> Apply(s, EndRun).1 == Done
    ensures s.running <==> Apply(s, Subscribe(feed)).1 == Done
  {
  }

  lemma OwnedStep(s: Flow, op: Op)
    requires Owned(s)
    ensures Owned(Apply(s, op).0)
  {
    if s.row.Some? {
      match op
      case Activate(runnable, f) => ActivatedKeeps(s, runnable, f);
      case Update(nodes, valid, f) => SaveKeeps(s, if nodes.Some? then nodes.value else s.row.value.nodes, f);
      case Replace(graph, valid, f) => SaveKeeps(s, graph, f);
      case Deactivate(f) =>
      case Delete(f) =>
      case BeginRun(_) =>
      case Subscribe(_) =>
      case EndRun =>
    }
  }

  /** A deleted workflow holds no feed, in every interleaving of runs with every route. */
  lemma {:induction false} DeletedHoldsNoFeed(s: Flow, ops: seq<Op>)
    requires Owned(s)
    ensures Owned(Run(s, ops))
    decreases ops
  {
    if ops != [] {
      OwnedStep(s, ops[0]);
      DeletedHoldsNoFeed(Apply(s, ops[0]).0, ops[1..]);
    }
  }

  /** An active workflow that goes inactive holds no feed afterwards exactly when it was the
      deactivate route that stood it down, or it held none: a rollback releases no feed. */
  lemma TurnedOffFeedsExactly(s: Flow, op: Op)
    requires s.Active() && Apply(s, op).0.row.Some? && !Apply(s, op).0.Active()
    ensures Apply(s, op).0.feeds == {} <==> op.Deactivate? || s.feeds == {}
  {
    match op
    case Activate(runnable, f) => ActivatedKeeps(s, runnable, f);
    case Update(nodes, valid, f) => SaveKeeps(s, if nodes.Some? then nodes.value else s.row.value.nodes, f);
    case Replace(graph, valid, f) => SaveKeeps(s, graph, f);
    case Deactivate(f) =>
    case Delete(f) =>
    case BeginRun(_) =>
    case Subscribe(_) =>
    case EndRun =>
  }

  /** A refusal changes neither the row nor any registration, and only ever drops feeds. */
  lemma RefusalKeepsArmed(s: Flow, op: Op)
    requires Apply(s, op).1 in {FeedConnected, Running, Refused, NotFound, AlreadyActive, AlreadyInactive}
    ensures Apply(s, op).0 == s.(feeds := Apply(s, op).0.feeds) && Apply(s, op).0.feeds <= s.feeds
    ensures Apply(s, op).1 == FeedConnected ==> Apply(s, op).0.feeds != {}
    ensures Apply(s, op).1 == AlreadyInactive ==> Apply(s, op).0.feeds == {}
  {
  }

  /** An armed job's id is in the row. */
  predicate Recorded(s: Flow) { s.job.Some? ==> s.row.Some? && s.row.value.jobId }

  lemma RegisterRecords(s: Flow, kind: Kind, fields: Option<Fields>, f: Faults)
    requires Recorded(s) && !Register(s, kind, fields, f).1
    ensures Recorded(Register(s, kind, fields, f).0)
  {
  }

  lemma ReregisterRecords(s: Flow, nodes: seq<Node>, f: Faults)
    requires Recorded(s) && !Reregister(s, nodes, f).1
    ensures Recorded(Reregister(s, nodes, f).0)
  {
    var node := FirstTrigger(nodes);
    RegisterRecords(Unregister(s, f).0, node.value.kind, FieldsOf(node.value.data), f);
  }

  lemma SaveRecords(s: Flow, nodes: seq<Node>, f: Faults)
    requires s.row.Some? && Recorded(s) && f.rollbackJob
    ensures Recorded(Save(s, nodes, f).0)
  {
    var stored := SetNodes(s, nodes);
    if !Reregister(stored, nodes, f).1 { ReregisterRecords(stored, nodes, f); }
  }

  lemma ActivatedRecords(s: Flow, runnable: bool, f: Faults)
    requires Quiet(s) && Recorded(s) && f.rollbackJob
    ensures Recorded(Activated(s, runnable, f).0)
  {
    if s.row.Some? && FirstTrigger(s.row.value.nodes).Some? && FirstTrigger(s.row.value.nodes).value.Trigger? {
      var node := FirstTrigger(s.row.value.nodes).value;
      if !Register(SetActive(s, true), node.kind, ActivationFields(node.data), f).1 {
        RegisterRecords(SetActive(s, true), node.kind, ActivationFields(node.data), f);
      }
    }
  }

  lemma RecordedStep(s: Flow, op: Op)
    requires Quiet(s) && Recorded(s) && RemovalsSucceed(op)
    ensures Recorded(Apply(s, op).0)
  {
    match op
    case Activate(runnable, f) => ActivatedRecords(s, runnable, f);
    case Update(nodes, valid, f) =>
      if s.row.Some? { SaveRecords(s, if nodes.Some? then nodes.value else s.row.value.nodes, f); }
    case Replace(graph, valid, f) => if s.row.Some? { SaveRecords(s, graph, f); }
    case Deactivate(f) =>
    case Delete(f) =>
    case BeginRun(_) =>
    case Subscribe(_) =>
    case EndRun =>
  }

  /** Over every run an armed job can be found again: its id is in the row, even when storing an
      id failed on the way, because the job is then removed. */
  lemma {:induction false} ArmedJobIsRecorded(s: Flow, ops: seq<Op>)
    requires Quiet(s) && Recorded(s) && forall op | op in ops :: RemovalsSucceed(op)
    ensures Recorded(Run(s, ops))
    decreases ops
  {
    if ops != [] {
      assert ops[0] in ops;
      QuietStep(s, ops[0]);
      RecordedStep(s, ops[0]);
      ArmedJobIsRecorded(Apply(s, ops[0]).0, ops[1..]);
    }
  }

  /** What every route keeps. */
  predicate Sane(s: Flow) { Quiet(s) && OneKind(s) && Recorded(s) && Owned(s) }

  /** Every request and every step of a run keeps all of it. */
  lemma SaneStep(s: Flow, op: Op)
    requires Sane(s) && RemovalsSucceed(op)
    ensures Sane(Apply(s, op).0)
  {
    QuietStep(s, op);
    OneKindExactly(s, op);
    RecordedStep(s, op);
    OwnedStep(s, op);
  }

  lemma SaveSane(s: Flow, nodes: seq<Node>, f: Faults)
    requires s.row.Some? && Sane(s) && f.rollbackJob
    ensures Sane(Save(s, nodes, f).0)
  {
    SaveQuiet(s, nodes, f);
    SaveOneKind(s, nodes, f);
    SaveRecords(s, nodes, f);
    SaveKeeps(s, nodes, f);
  }

  /** An activation that raised and could be rolled back leaves the workflow off and disarmed. */
  lemma FailedActivationIsOff(s: Flow, runnable: bool, f: Faults)
    requires Quiet(s) && Activated(s, runnable, f).1 == Failed && f.rollbackJob && f.rollbackRow
    ensures Activated(s, runnable, f).0.Disarmed() && !Activated(s, runnable, f).0.Active()
  {
    var node := FirstTrigger(s.row.value.nodes);
    RegisterKeeps(SetActive(s, true), node.value.kind, ActivationFields(node.value.data), f);
  }

  /** A re-registration that does not raise arms what the graph asks for; one that cannot tear the
      old job down changes nothing. */
  lemma ReregisterOutcome(s: Flow, nodes: seq<Node>, f: Faults)
    ensures !Reregister(s, nodes, f).1 ==> Matches(Reregister(s, nodes, f).0, GraphWants(nodes))
    ensures !f.unregisterJob ==> Reregister(s, nodes, f) == (s, true)
    ensures OneKind(s) ==> OneKind(Reregister(s, nodes, f).0)
  {
    var node := FirstTrigger(nodes);
    if !Reregister(s, nodes, f).1 {
      RegisterArms(Unregister(s, f).0, node.value.kind, FieldsOf(node.value.data), f);
    }
    if OneKind(s) { ReregisterOneKind(s, nodes, f); }
  }

  lemma ActivateKeeps(s: Flow, runnable: bool, f: Faults)
    ensures Sane(s) && f.rollbackJob ==> Sane(Activated(s, runnable, f).0)
    ensures Quiet(s) && Activated(s, runnable, f).1 == Done ==> AsWanted(Activated(s, runnable, f).0)
    ensures Quiet(s) && Activated(s, runnable, f).1 == Failed && f.rollbackJob && f.rollbackRow ==>
              Activated(s, runnable, f).0.Disarmed() && !Activated(s, runnable, f).0.Active()
  {
    if Sane(s) && f.rollbackJob { SaneStep(s, Activate(runnable, f)); }
    if Quiet(s) && Activated(s, runnable, f).1 == Done { ActivationArms(s, runnable, f); }
    if Quiet(s) && Activated(s, runnable, f).1 == Failed && f.rollbackJob && f.rollbackRow {
      FailedActivationIsOff(s, runnable, f);
    }
  }

  lemma SaveKeepsAll(s: Flow, nodes: seq<Node>, f: Faults)
    requires s.row.Some?
    ensures Sane(s) && f.rollbackJob ==> Sane(Save(s, nodes, f).0)
    ensures s.Active() && TriggerConfig(nodes) != TriggerConfig(s.row.value.nodes) ==>
              var (s', reply) := Save(s, nodes, f);
              if reply == Done then s'.Active() && Matches(s', GraphWants(nodes))
              else reply == NeedsReactivate && (f.rollbackJob ==> s'.Disarmed())
    ensures Save(s, nodes, f).0.row.Some? && Save(s, nodes, f).0.row.value.nodes == nodes
  {
    SaveKeeps(s, nodes, f);
    if Sane(s) && f.rollbackJob { SaveSane(s, nodes, f); }
    if s.Active() && TriggerConfig(nodes) != TriggerConfig(s.row.value.nodes) { RearmedOrStoodDown(s, nodes, f); }
  }

  lemma ReplaceArms(s: Flow, graph: seq<Node>, valid: bool, f: Faults)
    ensures Replaced(s, graph, valid, f).1 == Done && AsWanted(s) && SingleTriggerRow(s) ==>
              AsWanted(Replaced(s, graph, valid, f).0)
  {
    if Replaced(s, graph, valid, f).1 == Done && AsWanted(s) && SingleTriggerRow(s) {
      SaveArms(s, graph, f);
      if TriggerConfig(graph) == TriggerConfig(s.row.value.nodes) { SingleTriggerArms(s.row.value.nodes, graph); }
    }
  }

  lemma DeactivateKeeps(s: Flow, f: Faults)
    ensures Sane(s) ==> Sane(Deactivated(s, f).0)
    ensures Deactivated(s, f).1 == Done ==>
              var s' := Deactivated(s, f).0; s'.row.Some? && !s'.Active() && s'.Disarmed() && s'.feeds == {}
  {
    if Sane(s) { SaneStep(s, Deactivate(f)); }
    DeactivationOutcome(s, f);
  }

  lemma DeleteKeeps(s: Flow, f: Faults)
    ensures Sane(s) && f.deleteJob ==> Sane(Deleted(s, f).0)
    ensures Quiet(s) && Deleted(s, f).1 == Done ==> (Deleted(s, f).0.Disarmed() <==> f.deleteJob || s.job.None?)
  {
    if Sane(s) && f.deleteJob { SaneStep(s, Delete(f)); }
  }

  // ---- The routes, step by step ----

  class Platform {
    var row: Option<Row>
    var job: Option<Arguments>
    var alert: Option<Arguments>
    var watch: Option<Arguments>
    var feeds: set<Feed>
    var running: bool

    constructor (nodes: seq<Node>)
      ensures State() == Created(nodes)
      ensures row == Some(Row(false, nodes, false)) && State().Disarmed() && feeds == {} && !running
    {
      row, job, alert, watch := Some(Row(false, nodes, false)), None, None, None;
      feeds, running := {}, false;
    }

    function State(): Flow
      reads this
    {
      Flow(row, job, alert, watch, feeds, running)
    }

    method RemoveJob(strict: bool, works: bool) returns (raised: bool)
      modifies this`job
      ensures job == if works then None else old(job)
      ensures raised == (strict && !works)
    {
      if works {
        job := None;
      }
      raised := strict && !works;
    }

    method WriteRow(changed: Row, works: bool) returns (ok: bool)
      modifies this`row
      ensures ok == (works && old(row).Some?)
      ensures row == if ok then Some(changed) else old(row)
    {
      ok := works && row.Some?;
      if ok {
        row := Some(changed);
      }
    }

    method UnregisterTrigger(f: Faults) returns (raised: bool)
      modifies this`job, this`alert, this`watch
      ensures (State(), raised) == Unregister(old(State()), f)
    {
      raised := RemoveJob(true, f.unregisterJob);
      if raised { return; }
      alert := None;
      watch := None;
    }

    method RegisterTrigger(kind: Kind, fields: Option<Fields>, f: Faults) returns (raised: bool)
      modifies this`row, this`job, this`alert, this`watch
      ensures (State(), raised) == Register(old(State()), kind, fields, f)
    {
      match WantedBy(kind, fields) {
        case Nothing => return false;
        case Malformed => return true;
        case Arm(Job(args)) =>
          var _ := RemoveJob(false, f.clearJob);
          if !f.arm { return true; }
          job := Some(args);
          var recorded := false;
          if row.Some? {
            recorded := WriteRow(row.value.(jobId := true), f.writeJobId);
          }
          if !recorded {
            var _ := RemoveJob(false, f.undoJob);
          }
          return !recorded;
        case Arm(Alert(args)) =>
          if !f.arm { return true; }
          alert := Some(args);
          return false;
        case Arm(Watch(args)) =>
          if !f.arm { return true; }
          watch := Some(args);
          return false;
      }
    }

    method RollbackActivation(f: Faults)
      modifies this`row, this`job, this`alert, this`watch
      ensures State() == Rollback(old(State()), f)
    {
      var undo := 0;
      while undo < 4
        invariant undo <= 4 && feeds == old(feeds) && running == old(running)
        invariant job == if undo > 0 && f.rollbackJob then None else old(job)
        invariant alert == if undo > 1 then None else old(alert)
        invariant watch == if undo > 2 then None else old(watch)
        invariant row == if undo > 3 then Rollback(old(State()), f).row else old(row)
      {
        if undo == 0 {
          var _ := RemoveJob(false, f.rollbackJob);
        } else if undo == 1 {
          alert := None;
        } else if undo == 2 {
          watch := None;
        } else if row.Some? {
          var _ := WriteRow(row.value.(active := false), f.rollbackRow);
        }
        undo := undo + 1;
      }
    }

    method ReregisterTrigger(nodes: seq<Node>, f: Faults) returns (raised: bool)
      modifies this`row, this`job, this`alert, this`watch
      ensures (State(), raised) == Reregister(old(State()), nodes, f)
      ensures !raised ==> Matches(State(), GraphWants(nodes))
      ensures !f.unregisterJob ==> raised && State() == old(State())
      ensures OneKind(old(State())) ==> OneKind(State())
    {
      ReregisterOutcome(State(), nodes, f);
      var node := FirstTrigger(nodes);
      if node.None? || node.value.Action? || !f.apiKey { return true; }
      raised := UnregisterTrigger(f);
      if !raised {
        raised := RegisterTrigger(node.value.kind, FieldsOf(node.value.data), f);
      }
    }

    method ActivateWorkflow(runnable: bool, f: Faults) returns (reply: Reply)
      modifies this`row, this`job, this`alert, this`watch
      ensures (State(), reply) == Activated(old(State()), runnable, f)
      ensures Sane(old(State())) && f.rollbackJob ==> Sane(State())
      ensures Quiet(old(State())) && reply == Done ==> AsWanted(State())
      ensures Quiet(old(State())) && reply == Failed && f.rollbackJob && f.rollbackRow ==>
                State().Disarmed() && !State().Active()
      ensures reply !in {Done, Failed} ==> State() == old(State())
      ensures reply == Done <==>
              old(row).Some? && !old(State()).Active() && f.apiKey && runnable &&
              TriggerCount(old(row).value.nodes) == 1 && f.writeRow &&
              Registers(ActivationWants(old(row).value.nodes), f)
    {
      ActivateKeeps(State(), runnable, f);
      ActivateAnswers(State(), runnable, f);
      if row.None? { return NotFound; }
      if row.value.active { return AlreadyActive; }
      if !f.apiKey || !runnable || TriggerCount(row.value.nodes) != 1 { return Refused; }
      var node := FirstTrigger(row.value.nodes);
      if node.None? || node.value.Action? { return Refused; }
      var stored := WriteRow(row.value.(active := true), f.writeRow);
      if !stored { return Failed; }
      var raised := RegisterTrigger(node.value.kind, ActivationFields(node.value.data), f);
      if raised {
        RollbackActivation(f);
        return Failed;
      }
      return Done;
    }

    method SaveGraph(nodes: seq<Node>, f: Faults) returns (reply: Reply)
      requires row.Some?
      modifies this`row, this`job, this`alert, this`watch
      ensures (State(), reply) == Save(old(State()), nodes, f)
      ensures row.Some? && row.value.nodes == nodes
      ensures Sane(old(State())) && f.rollbackJob ==> Sane(State())
      ensures old(State()).Active() && TriggerConfig(nodes) != TriggerConfig(old(row).value.nodes) ==>
                if reply == Done then State().Active() && Matches(State(), GraphWants(nodes))
                else reply == NeedsReactivate && (f.rollbackJob ==> State().Disarmed())
      ensures reply == if StandsDown(old(State()), nodes, f) then NeedsReactivate else Done
    {
      SaveKeepsAll(State(), nodes, f);
      SaveAnswers(State(), nodes, f);
      var before, wasActive := TriggerConfig(row.value.nodes), row.value.active;
      row := Some(row.value.(nodes := nodes));
      if wasActive && TriggerConfig(nodes) != before {
        var raised := ReregisterTrigger(nodes, f);
        if raised {
          RollbackActivation(f);
          return NeedsReactivate;
        }
      }
      return Done;
    }

    method UpdateWorkflow(nodes: Option<seq<Node>>, valid: bool, f: Faults) returns (reply: Reply)
      modifies this`row, this`job, this`alert, this`watch
      ensures (State(), reply) == Updated(old(State()), nodes, valid, f)
      ensures Sane(old(State())) && f.rollbackJob ==> Sane(State())
      ensures reply in {Refused, NotFound} ==> State() == old(State())
      ensures reply !in {Refused, NotFound} ==>
                row.Some? && row.value.nodes == if nodes.Some? then nodes.value else old(row).value.nodes
      ensures nodes.None? && reply !in {Refused, NotFound} ==> State() == old(State())
      ensures reply == Done && nodes.Some? && old(State()).Active() &&
              TriggerConfig(nodes.value) != TriggerConfig(old(row).value.nodes) ==>
                State().Active() && Matches(State(), GraphWants(nodes.value))
      ensures reply == NeedsReactivate && f.rollbackJob ==> State().Disarmed()
      ensures reply == Done <==>
              (nodes.None? || (valid && !StandsDown(old(State()), nodes.value, f))) && old(row).Some? && f.writeRow
    {
      UpdateAnswers(State(), nodes, valid, f);
      if nodes.Some? && !valid { return Refused; }
      if row.None? || !f.writeRow { return NotFound; }
      reply := SaveGraph(if nodes.Some? then nodes.value else row.value.nodes, f);
    }

    method ReplaceWorkflow(graph: seq<Node>, valid: bool, f: Faults) returns (reply: Reply)
      modifies this`row, this`job, this`alert, this`watch
      ensures (State(), reply) == Replaced(old(State()), graph, valid, f)
      ensures Sane(old(State())) && f.rollbackJob ==> Sane(State())
      ensures reply in {Refused, NotFound, Failed} ==> State() == old(State())
      ensures reply !in {Refused, NotFound, Failed} ==>
                row.Some? && row.value.nodes == graph && TriggerCount(graph) == 1
      ensures reply == Done && AsWanted(old(State())) && SingleTriggerRow(old(State())) ==> AsWanted(State())
      ensures reply == Done <==>
              old(row).Some? && valid && TriggerCount(graph) == 1 && f.writeRow && !StandsDown(old(State()), graph, f)
    {
      ReplaceAnswers(State(), graph, valid, f);
      ReplaceArms(State(), graph, valid, f);
      if row.None? { return NotFound; }
      if !valid || TriggerCount(graph) != 1 { return Refused; }
      if !f.writeRow { return Failed; }
      reply := SaveGraph(graph, f);
    }

    method DeactivateWorkflow(f: Faults) returns (reply: Reply)
      modifies this
      ensures (State(), reply) == Deactivated(old(State()), f)
      ensures Sane(old(State())) ==> Sane(State())
      ensures reply == Done ==> row.Some? && !State().Active() && State().Disarmed() && feeds == {}
      ensures reply == Done <==>
              old(State()).Active() && !running && old(feeds) <= f.released && f.unregisterJob && f.writeRow
    {
      DeactivateKeeps(State(), f);
      DeactivateAnswers(State(), f);
      if running { return Running; }
      if row.None? { return NotFound; }
      feeds := feeds - f.released;
      if feeds != {} { return FeedConnected; }
      if !row.value.active { return AlreadyInactive; }
      var raised := RemoveJob(true, f.unregisterJob);
      if raised { return Failed; }
      if row.value.jobId {
        var _ := WriteRow(row.value.(jobId := false), f.writeJobId);
      }
      alert := None;
      watch := None;
      var stored := WriteRow(row.value.(active := false), f.writeRow);
      return if stored then Done else Failed;
    }

    method DeleteWorkflow(f: Faults) returns (reply: Reply)
      modifies this
      ensures (State(), reply) == Deleted(old(State()), f)
      ensures Sane(old(State())) && f.deleteJob ==> Sane(State())
      ensures reply == Done ==> row == None && feeds == {}
      ensures Quiet(old(State())) && reply == Done ==>
                (State().Disarmed() <==> f.deleteJob || old(job).None?)
      ensures reply != Done ==> row == old(row) && running == old(running)
      ensures reply == Done <==> DeleteGoesThrough(old(State()), f)
      ensures reply !in {Done, Failed} ==> State() == old(State()).(feeds := feeds) && feeds <= old(feeds)
    {
      DeleteKeeps(State(), f);
      DeleteAnswers(State(), f);
      if running { return Running; }
      if row.None? { return NotFound; }
      feeds := feeds - f.released;
      if feeds != {} { return FeedConnected; }
      if row.value.active {
        var _ := RemoveJob(false, f.deleteJob);
        alert := None;
        watch := None;
      }
      if !f.writeRow { return Failed; }
      row := None;
      return Done;
    }
  }
}
