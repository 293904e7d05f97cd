/** A workflow graph as its trigger sees it: which node decides the registration
    (blueprints/flow.py, _trigger_node and _register_trigger) and what a save compares to
    decide whether the registration is still current (trigger_config). */
module FlowGraph {
  import opened Wrappers

  datatype Kind = Start | Webhook | PriceAlert | OrderUpdate

  datatype Value = Null | Text(text: string) | Number(n: int)

  type Fields = map<string, Value>

  /** A node's "data": missing, a falsy non-object, an object, or some other value. */
  datatype Data = Absent | Falsy | Dict(fields: Fields) | Scalar

  datatype Node = Action(id: int) | Trigger(kind: Kind, data: Data)

  /** What a registration is given, one value for each field of its kind. */
  type Arguments = seq<Value>

  /** What arming a trigger leaves behind. */
  datatype Registration = Job(args: Arguments) | Alert(args: Arguments) | Watch(args: Arguments)

  datatype Wanted = Nothing | Arm(reg: Registration) | Malformed

  const START_FIELDS :=
    ["scheduleType", "time", "days", "executeAt", "intervalValue", "intervalUnit", "marketHoursOnly"]
  const ALERT_FIELDS := ["symbol", "exchange", "condition", "price", "priceLower", "priceUpper",
                         "percentage", "trigger", "expiration"]
  const WATCH_FIELDS := ["orderId", "symbol", "exchange", "status", "trigger"]

  // "intervalMinutes" is compared although no registration reads it any more.
  const CONFIG_FIELDS := START_FIELDS + ALERT_FIELDS + WATCH_FIELDS + ["intervalMinutes"]

  /** Those of the fields that are named. */
  function Project(fields: Fields, names: seq<string>): Fields { fields - (set k | k in fields && k !in names) }

  predicate IsFalsy(v: Value) { v in {Null, Text(""), Number(0)} }

  predicate Scheduled(fields: Fields) {
    "scheduleType" in fields && !IsFalsy(fields["scheduleType"]) && fields["scheduleType"] != Text("manual")
  }

  /** What a missing field is registered as. */
  function Default(kind: Kind, name: string): Value {
    match (kind, name)
    case (Start, "time") => Text("09:15")
    case (PriceAlert, "symbol") => Text("")
    case (PriceAlert, "exchange") => Text("NSE")
    case (PriceAlert, "condition") => Text("greater_than")
    case (PriceAlert, "expiration") => Text("none")
    case (OrderUpdate, "status") => Text("complete")
    case (_, "trigger") => Text("once")
    case _ => Null
  }

  /** The fields whose falsy values all mean the same. */
  predicate FalsyIsNone(kind: Kind, name: string) {
    || (kind == PriceAlert && name == "price")
    || (kind == OrderUpdate && name in {"orderId", "symbol", "exchange"})
  }

  /** The value a registration is given for one field; of the market-hours switch only whether it is on. */
  function Given(kind: Kind, fields: Fields, name: string): Value {
    if name !in fields then Default(kind, name)
    else if kind == Start && name == "marketHoursOnly" then (if IsFalsy(fields[name]) then Null else Number(1))
    else if FalsyIsNone(kind, name) && IsFalsy(fields[name]) then Null
    else fields[name]
  }

  /** What _register_trigger hands over, by field. */
  function Args(kind: Kind, fields: Fields, names: seq<string>): Arguments {
    seq(|names|, i requires 0 <= i < |names| => Given(kind, fields, names[i]))
  }

  /** The registration a trigger node asks for; an object without fields when data is None. */
  function WantedBy(kind: Kind, fields: Option<Fields>): Wanted {
    if kind == Webhook then Nothing
    else match fields
      case None => Malformed
      case Some(f) =>
        match kind
        case Start => if Scheduled(f) then Arm(Job(Args(Start, f, START_FIELDS))) else Nothing
        case PriceAlert => Arm(Alert(Args(PriceAlert, f, ALERT_FIELDS)))
        case OrderUpdate => Arm(Watch(Args(OrderUpdate, f, WATCH_FIELDS)))
  }

  function FirstTrigger(nodes: seq<Node>): Option<Node> {
    if nodes == [] then None
    else if nodes[0].Trigger? then Some(nodes[0])
    else FirstTrigger(nodes[1..])
  }

  /** data or {}: how a save and a re-registration read a node. */
  function FieldsOf(data: Data): Option<Fields> {
    match data
    case Absent => Some(map[])
    case Falsy => Some(map[])
    case Dict(f) => Some(f)
    case Scalar => None
  }

  /** The registration the stored graph asks for. */
  function GraphWants(nodes: seq<Node>): Wanted {
    match FirstTrigger(nodes)
    case Some(Trigger(kind, data)) => WantedBy(kind, FieldsOf(data))
    case _ => Nothing
  }

  function Compared(fields: Fields): Fields { Project(fields, CONFIG_FIELDS) }

  /** What a save compares: per trigger type, the fields of its last node of that type. */
  function TriggerConfig(nodes: seq<Node>): map<Kind, Fields> {
    if nodes == [] then map[]
    else
      var before, node := TriggerConfig(nodes[..|nodes| - 1]), nodes[|nodes| - 1];
      if node.Trigger? && FieldsOf(node.data).Some?
      then before[node.kind := Compared(FieldsOf(node.data).value)]
      else before
  }

  function TriggerCount(nodes: seq<Node>): nat {
    if nodes == [] then 0 else TriggerCount(nodes[1..]) + (if nodes[0].Trigger? then 1 else 0)
  }

  lemma {:induction false} TriggerCountSnoc(nodes: seq<Node>, node: Node)
    ensures TriggerCount(nodes + [node]) == TriggerCount(nodes) + TriggerCount([node])
  {
    if nodes != [] {
      assert (nodes + [node])[1..] == nodes[1..] + [node];
      TriggerCountSnoc(nodes[1..], node);
    }
  }

  lemma {:induction false} FirstTriggerSnoc(nodes: seq<Node>, node: Node)
    ensures FirstTrigger(nodes + [node]) ==
            if FirstTrigger(nodes).Some? then FirstTrigger(nodes) else FirstTrigger([node])
    ensures FirstTrigger(nodes).Some? <==> TriggerCount(nodes) > 0
  {
    if nodes != [] {
      assert (nodes + [node])[1..] == nodes[1..] + [node];
      FirstTriggerSnoc(nodes[1..], node);
    }
  }

  /** With at most one trigger node, the compared configuration is exactly that node's. */
  lemma {:induction false} SingleTriggerConfig(nodes: seq<Node>)
    requires TriggerCount(nodes) <= 1
    ensures match FirstTrigger(nodes)
            case Some(Trigger(kind, data)) =>
              TriggerConfig(nodes) == (match FieldsOf(data)
                                       case Some(f) => map[kind := Compared(f)]
                                       case None => map[])
            case _ => TriggerConfig(nodes) == map[]
  {
    if nodes != [] {
      var init, node := nodes[..|nodes| - 1], nodes[|nodes| - 1];
      assert nodes == init + [node];
      TriggerCountSnoc(init, node);
      FirstTriggerSnoc(init, node);
      SingleTriggerConfig(init);
    }
  }

  lemma SameGiven(kind: Kind, a: Fields, b: Fields, name: string)
    requires Compared(a) == Compared(b) && name in CONFIG_FIELDS
    ensures (name in a <==> name in b) && (name in a ==> a[name] == b[name])
    ensures Given(kind, a, name) == Given(kind, b, name)
  {
    assert name in Compared(a) <==> name in a;
    assert name in Compared(b) <==> name in b;
    if name in a { assert Compared(a)[name] == a[name] && Compared(b)[name] == b[name]; }
  }

  lemma SameArgs(kind: Kind, a: Fields, b: Fields, names: seq<string>)
    requires Compared(a) == Compared(b)
    requires forall name :: name in names ==> name in CONFIG_FIELDS
    ensures Args(kind, a, names) == Args(kind, b, names)
  {
    forall i | 0 <= i < |names| ensures Given(kind, a, names[i]) == Given(kind, b, names[i]) {
      SameGiven(kind, a, b, names[i]);
    }
  }

  /** Every field a registration is given is compared: fields that agree on the compared ones
      ask for the same registration. */
  lemma ComparedFieldsDetermine(kind: Kind, a: Fields, b: Fields)
    requires Compared(a) == Compared(b)
    ensures WantedBy(kind, Some(a)) == WantedBy(kind, Some(b))
  {
    SameArgs(kind, a, b, START_FIELDS);
    SameArgs(kind, a, b, ALERT_FIELDS);
    SameArgs(kind, a, b, WATCH_FIELDS);
    assert START_FIELDS[0] in CONFIG_FIELDS;
    SameGiven(kind, a, b, "scheduleType");
  }

  lemma SameDefaults(kind: Kind, fields: Fields, name: string, names: seq<string>)
    requires name !in fields
    ensures Args(kind, fields[name := Default(kind, name)], names) == Args(kind, fields, names)
  {
    var given := fields[name := Default(kind, name)];
    forall i | 0 <= i < |names| ensures Given(kind, given, names[i]) == Given(kind, fields, names[i]) {
    }
  }

  /** A Start node asks for a job unless its schedule is missing, empty or "manual"; the job is given
      these fields, with these values for the ones left out. */
  lemma StartArguments(f: Fields)
    ensures var names := ["scheduleType", "time", "days", "executeAt", "intervalValue", "intervalUnit",
                          "marketHoursOnly"];
            var defaults := [Null, Text("09:15"), Null, Null, Null, Null, Null];
            var wanted := WantedBy(Start, Some(f));
            && (wanted == Nothing <==>
                "scheduleType" !in f || f["scheduleType"] in {Null, Text(""), Number(0), Text("manual")})
            && (wanted != Nothing ==>
                  wanted.Arm? && wanted.reg.Job? && |wanted.reg.args| == 7 &&
                  forall i :: 0 <= i < 7 ==>
                    wanted.reg.args[i] == (if names[i] !in f then defaults[i]
                                           else if i == 6 then (if IsFalsy(f[names[i]]) then Null else Number(1))
                                           else f[names[i]]))
  {
  }

  /** A price alert is armed with these fields and these defaults; a price of 0 is none. */
  lemma AlertArguments(f: Fields)
    ensures var names := ["symbol", "exchange", "condition", "price", "priceLower", "priceUpper", "percentage",
                          "trigger", "expiration"];
            var defaults := [Text(""), Text("NSE"), Text("greater_than"), Null, Null, Null, Null, Text("once"),
                             Text("none")];
            var wanted := WantedBy(PriceAlert, Some(f));
            wanted.Arm? && wanted.reg.Alert? && |wanted.reg.args| == 9 &&
            forall i :: 0 <= i < 9 ==>
              wanted.reg.args[i] == (if names[i] !in f then defaults[i]
                                     else if i == 3 && IsFalsy(f[names[i]]) then Null
                                     else f[names[i]])
  {
  }

  /** A watch for order updates likewise; an empty order id, symbol or exchange watches any. */
  lemma WatchArguments(f: Fields)
    ensures var names := ["orderId", "symbol", "exchange", "status", "trigger"];
            var defaults := [Null, Null, Null, Text("complete"), Text("once")];
            var wanted := WantedBy(OrderUpdate, Some(f));
            wanted.Arm? && wanted.reg.Watch? && |wanted.reg.args| == 5 &&
            forall i :: 0 <= i < 5 ==>
              wanted.reg.args[i] == (if names[i] !in f then defaults[i]
                                     else if i < 3 && IsFalsy(f[names[i]]) then Null
                                     else f[names[i]])
  {
  }

  lemma ComparedNames(name: string)
    ensures name in CONFIG_FIELDS <==>
            name in {"scheduleType", "time", "days", "executeAt", "intervalValue", "intervalUnit",
                     "intervalMinutes", "marketHoursOnly", "symbol", "exchange", "condition", "price",
                     "priceLower", "priceUpper", "percentage", "trigger", "expiration", "orderId", "status"}
  {
  }

  lemma ComparedWhenNamed(f: Fields, name: string, v: Value)
    requires name in f ==> f[name] != v
    ensures Compared(f[name := v]) != Compared(f) <==> name in CONFIG_FIELDS
  {
    var after := f[name := v];
    if name in CONFIG_FIELDS {
      assert name in Compared(after) && Compared(after)[name] == v;
    } else {
      assert Compared(after) == Compared(f);
    }
  }

  /** Giving a field another value is seen by the comparison exactly when it is one of these. */
  lemma ComparedExactly(f: Fields, name: string, v: Value)
    requires name in f ==> f[name] != v
    ensures Compared(f[name := v]) != Compared(f) <==>
            name in {"scheduleType", "time", "days", "executeAt", "intervalValue", "intervalUnit",
                     "intervalMinutes", "marketHoursOnly", "symbol", "exchange", "condition", "price",
                     "priceLower", "priceUpper", "percentage", "trigger", "expiration", "orderId", "status"}
  {
    ComparedNames(name);
    ComparedWhenNamed(f, name, v);
  }

  /** A field left out and the same field given its default ask for the same registration. */
  lemma DefaultsArmTheSame(kind: Kind, fields: Fields, name: string)
    requires name !in fields && name in START_FIELDS + ALERT_FIELDS + WATCH_FIELDS
    ensures WantedBy(kind, Some(fields)) == WantedBy(kind, Some(fields[name := Default(kind, name)]))
  {
    SameDefaults(kind, fields, name, START_FIELDS);
    SameDefaults(kind, fields, name, ALERT_FIELDS);
    SameDefaults(kind, fields, name, WATCH_FIELDS);
  }

  /** Between graphs with at most one trigger each, an unchanged configuration means an
      unchanged registration. */
  lemma SameConfigSameRegistration(before: seq<Node>, after: seq<Node>)
    requires TriggerCount(before) <= 1 && TriggerCount(after) <= 1
    requires GraphWants(before).Arm? && TriggerConfig(before) == TriggerConfig(after)
    ensures GraphWants(after) == GraphWants(before)
  {
    SingleTriggerConfig(before);
    SingleTriggerConfig(after);
    var kind, data := FirstTrigger(before).value.kind, FirstTrigger(before).value.data;
    assert kind in TriggerConfig(after);
    var f, g := FieldsOf(data).value, FieldsOf(FirstTrigger(after).value.data).value;
    assert TriggerConfig(before)[kind] == TriggerConfig(after)[kind];
    ComparedFieldsDetermine(kind, f, g);
  }

  lemma FirstDecides(nodes: seq<Node>, kind: Kind, fields: Fields)
    requires nodes != [] && nodes[0] == Trigger(kind, Dict(fields))
    ensures GraphWants(nodes) == WantedBy(kind, Some(fields)) && TriggerCount(nodes) == 1 + TriggerCount(nodes[1..])
  {
  }

  lemma LastDecides(init: seq<Node>, kind: Kind, fields: Fields)
    ensures TriggerConfig(init + [Trigger(kind, Dict(fields))]) == TriggerConfig(init)[kind := Compared(fields)]
  {
    assert (init + [Trigger(kind, Dict(fields))])[..|init|] == init;
  }

  lemma OneTrigger(kind: Kind, fields: Fields)
    ensures TriggerConfig([Trigger(kind, Dict(fields))]) == map[kind := Compared(fields)]
    ensures TriggerCount([Trigger(kind, Dict(fields))]) == 1
  {
    var nodes := [Trigger(kind, Dict(fields))];
    FirstDecides(nodes, kind, fields);
    LastDecides([], kind, fields);
    assert [] + nodes == nodes;
  }

  lemma TwoTriggers(kind: Kind, first: Fields, last: Fields)
    ensures var nodes := [Trigger(kind, Dict(first)), Trigger(kind, Dict(last))];
            TriggerConfig(nodes) == map[kind := Compared(last)] && TriggerCount(nodes) == 2
  {
    var x, y := Trigger(kind, Dict(first)), Trigger(kind, Dict(last));
    var nodes := [x, y];
    FirstDecides(nodes, kind, first);
    LastDecides([x], kind, last);
    OneTrigger(kind, first);
    OneTrigger(kind, last);
    assert nodes[1..] == [y] && nodes == [x] + [y];
  }

  /** With two trigger nodes of one type the comparison looks at the last and the
      registration at the first, so any change made by putting a node before it is hidden. */
  lemma SecondTriggerHidesAChange(kind: Kind, a: Fields, b: Fields)
    ensures var before, after := [Trigger(kind, Dict(a))], [Trigger(kind, Dict(b)), Trigger(kind, Dict(a))];
            TriggerCount(before) == 1 && TriggerCount(after) == 2 &&
            TriggerConfig(before) == TriggerConfig(after) &&
            GraphWants(before) == WantedBy(kind, Some(a)) && GraphWants(after) == WantedBy(kind, Some(b))
  {
    OneTrigger(kind, a);
    TwoTriggers(kind, b, a);
    FirstDecides([Trigger(kind, Dict(a))], kind, a);
    FirstDecides([Trigger(kind, Dict(b)), Trigger(kind, Dict(a))], kind, b);
  }
}
