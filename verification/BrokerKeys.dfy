/** Broker keys against the live broker session: saving and forgetting keys
    (blueprints/broker_config.py), a login's slot, commit and registration (utils/broker_keys.py
    and handle_auth_success in utils/auth_utils.py), the resume of a stored session and its end
    (blueprints/auth.py). Each step below is one stretch under a lock, so steps of many requests
    interleave. */
module BrokerKeys {
  import opened Wrappers

  type Broker = string
  type Login = nat

  datatype Keys = Keys(apiKey: string, apiSecret: string, marketKey: string, marketSecret: string)

  const BLANK := Keys("", "", "", "")
  const LOGIN_SLOT_SECONDS: nat := 120

  /** The stored, unrevoked broker session: the keys are those it was opened with. */
  datatype Token = Token(broker: Broker, openedWith: Keys)

  datatype Slot = Slot(broker: Broker, holders: set<Login>, until: nat, exclusive: bool)

  /** A login or a resume under way. Its token, once it has one, was opened with its own staged
      keys, or for a resume with those of the session it found. */
  datatype Attempt = Attempt(broker: Broker, staged: Keys, openedWith: Keys, committed: bool)

  datatype Env = Env(broker: Broker, keys: Keys)

  /** What is stored of keys: the .env broker's, and one row per saved broker. */
  datatype Store = Store(env: Option<Env>, rows: map<Broker, Keys>, redirects: map<Broker, string>, host: string)

  /** The stored session and what makes it a current one. */
  datatype Session = Session(
    token: Option<Token>,
    devices: bool,             // a device holds a sign-in from the current day
    recorded: set<Broker>,     // brokers with a successful login recorded since the rollover
    never: set<Broker>)        // brokers whose sessions outlive the day

  datatype Desk = Desk(slot: Slot, now: nat, logins: map<Login, Attempt>)

  datatype State = State(store: Store, session: Session, desk: Desk)

  datatype Op =
    | Begin(id: Login, broker: Broker)
    | BeginResume(id: Login)
    | Commit(id: Login, refusedElsewhere: bool, stores: bool)
    | Register(id: Login)
    | End(id: Login)
    | Save(broker: Broker, values: Keys, redirect: Option<string>, valid: bool, complete: bool,
           confirmed: bool, switchRefused: bool, writes: bool, revokes: bool)
    | Forget(broker: Broker, confirmed: bool, switchRefused: bool, deletes: bool, revokes: bool)
    | Logout(revokes: bool)
    | Tick(seconds: nat)
    | Rollover

  datatype Reply = Done | Busy | Invalid | NotFound | Unconfirmed | SwitchRefused | WriteFailed | Refused

  function EmptySlot(): Slot { Slot("", {}, 0, false) }

  /** resolve(): the .env file first; a row without an API key counts as none. */
  function Resolve(store: Store, broker: Broker): Option<Keys> {
    if store.env.Some? && store.env.value.broker == broker then Some(store.env.value.keys)
    else if broker in store.rows && store.rows[broker].apiKey != "" then Some(store.rows[broker])
    else None
  }

  predicate Live(c: Session) {
    c.token.Some? && (c.token.value.broker in c.never || c.devices || c.token.value.broker in c.recorded)
  }

  predicate LiveAt(c: Session, broker: Broker) { Live(c) && c.token.value.broker == broker }

  predicate SlotBusy(d: Desk) { d.slot.holders != {} && d.slot.until > d.now }

  predicate LoginUnderWay(d: Desk, broker: Broker) { SlotBusy(d) && d.slot.broker == broker }

  predicate Holds(d: Desk, id: Login) { id in d.slot.holders && d.slot.until > d.now }

  /** hold_login_slot(). */
  predicate MayHold(d: Desk, broker: Broker, exclusive: bool) {
    !(SlotBusy(d) && (exclusive || d.slot.exclusive || d.slot.broker != broker))
  }

  function Held(d: Desk, id: Login, broker: Broker, exclusive: bool): Slot {
    var others := if d.slot.broker != broker || !SlotBusy(d) then {} else d.slot.holders;
    Slot(broker, others + {id}, d.now + LOGIN_SLOT_SECONDS, exclusive)
  }

  function ReleasedSlot(slot: Slot, id: Login): Slot {
    var left := slot.holders - {id};
    if left == {} then EmptySlot() else slot.(holders := left)
  }

  /** begin_broker_login(); when no key is configured the caller gives the slot back. */
  function Begun(d: Desk, id: Login, broker: Broker, keys: Option<Keys>, openedWith: Option<Keys>): (Desk, Reply) {
    if id in d.logins then (d, Invalid)
    else if !MayHold(d, broker, openedWith.Some?) then (d, Busy)
    else
      var slot := Held(d, id, broker, openedWith.Some?);
      if keys.None? then (d.(slot := ReleasedSlot(slot, id)), Refused)
      else
        var with := if openedWith.Some? then openedWith.value else keys.value;
        (d.(slot := slot, logins := d.logins[id := Attempt(broker, keys.value, with, false)]), Done)
  }

  /** handle_auth_success() under the commit guard: slot, keys and the other checks first, then
      the token; the devices of a broker switched away from are signed out. */
  function Committed(s: State, id: Login, refusedElsewhere: bool, stores: bool): (State, Reply) {
    if id !in s.desk.logins || s.desk.logins[id].committed then (s, Invalid)
    else
      var a := s.desk.logins[id];
      if !Holds(s.desk, id) || Resolve(s.store, a.broker) != Some(a.staged) || refusedElsewhere then (s, Refused)
      else if !stores then (s, WriteFailed)
      else
        var switched := Live(s.session) && s.session.token.value.broker != a.broker;
        (State(s.store,
               s.session.(token := Some(Token(a.broker, a.openedWith)), devices := s.session.devices && !switched),
               s.desk.(logins := s.desk.logins[id := a.(committed := true)])), Done)
  }

  /** The registration that follows, after the guard is released. */
  function Registered(s: State, id: Login): (State, Reply) {
    if id in s.desk.logins && s.desk.logins[id].committed
    then (s.(session := s.session.(devices := true, recorded := s.session.recorded + {s.desk.logins[id].broker})), Done)
    else (s, Invalid)
  }

  function Ended(d: Desk, id: Login): Desk {
    d.(slot := ReleasedSlot(d.slot, id), logins := Without(d.logins, id))
  }

  /** _end_broker_session(): the devices are signed out even when the token is not revoked. */
  function SignedOut(c: Session, revokes: bool): Session {
    c.(token := if revokes then None else c.token, devices := false)
  }

  function Merge(stored: Keys, given: Keys): Keys {
    Keys(if given.apiKey == "" then stored.apiKey else given.apiKey,
         if given.apiSecret == "" then stored.apiSecret else given.apiSecret,
         if given.marketKey == "" then stored.marketKey else given.marketKey,
         if given.marketSecret == "" then stored.marketSecret else given.marketSecret)
  }

  predicate IsEnvBroker(store: Store, broker: Broker) { store.env.Some? && store.env.value.broker == broker }

  function DefaultRedirect(store: Store, broker: Broker): string { store.host + "/" + broker + "/callback" }

  /** An .env line holds the whole address; a row holds "" for the automatic one. */
  function Redirects(store: Store, broker: Broker, redirect: Option<string>): map<Broker, string> {
    if redirect.None? then store.redirects
    else if IsEnvBroker(store, broker) then
      store.redirects[broker := if redirect.value == "" then DefaultRedirect(store, broker) else redirect.value]
    else
      store.redirects[broker := if redirect.value == DefaultRedirect(store, broker) then "" else redirect.value]
  }

  /** The write of save_broker: the .env lines, or the row. */
  function Written(store: Store, broker: Broker, values: Keys, redirect: Option<string>): Store {
    if IsEnvBroker(store, broker) then
      store.(env := Some(Env(broker, Merge(store.env.value.keys, values))),
             redirects := Redirects(store, broker, redirect))
    else
      store.(rows := store.rows[broker := Merge(if broker in store.rows then store.rows[broker] else BLANK, values)],
             redirects := Redirects(store, broker, redirect))
  }

  function Saved(s: State, broker: Broker, values: Keys, redirect: Option<string>, valid: bool, complete: bool,
                 confirmed: bool, switchRefused: bool, writes: bool, revokes: bool): (State, Reply) {
    var ends := values != BLANK && LiveAt(s.session, broker);
    if !valid || (values == BLANK && redirect.None?) then (s, Invalid)
    else if Resolve(s.store, broker).None? && !complete then (s, Invalid)
    else if LoginUnderWay(s.desk, broker) then (s, Busy)
    else if ends && !confirmed then (s, Unconfirmed)
    else if ends && switchRefused then (s, SwitchRefused)
    else if !writes then (s, WriteFailed)
    else if !IsEnvBroker(s.store, broker) && broker !in s.store.rows && values.apiKey == "" then (s, Invalid)
    else (State(Written(s.store, broker, values, redirect),
                if ends then SignedOut(s.session, revokes) else s.session, s.desk), Done)
  }

  function Forgotten(s: State, broker: Broker, confirmed: bool, switchRefused: bool, deletes: bool,
                     revokes: bool): (State, Reply) {
    if IsEnvBroker(s.store, broker) then (s, Invalid)
    else if broker !in s.store.rows then (s, NotFound)
    else if LoginUnderWay(s.desk, broker) then (s, Busy)
    else if LiveAt(s.session, broker) && !confirmed then (s, Unconfirmed)
    else if LiveAt(s.session, broker) && switchRefused then (s, SwitchRefused)
    else
      var session := if LiveAt(s.session, broker) then SignedOut(s.session, revokes) else s.session;
      if !deletes then (s.(session := session), WriteFailed)
      else (State(s.store.(rows := Without(s.store.rows, broker),
                           redirects := Without(s.store.redirects, broker)), session, s.desk), Done)
  }

  function Apply(s: State, op: Op): (State, Reply) {
    match op
    case Begin(id, broker) =>
      var (desk, reply) := Begun(s.desk, id, broker, Resolve(s.store, broker), None);
      (s.(desk := desk), reply)
    case BeginResume(id) =>
      if s.session.token.None? then (s, NotFound)
      else
        var found := s.session.token.value;
        var (desk, reply) := Begun(s.desk, id, found.broker, Resolve(s.store, found.broker), Some(found.openedWith));
        (s.(desk := desk), reply)
    case Commit(id, refusedElsewhere, stores) => Committed(s, id, refusedElsewhere, stores)
    case Register(id) => Registered(s, id)
    case End(id) => (s.(desk := Ended(s.desk, id)), Done)
    case Save(broker, values, redirect, valid, complete, confirmed, switchRefused, writes, revokes) =>
      Saved(s, broker, values, redirect, valid, complete, confirmed, switchRefused, writes, revokes)
    case Forget(broker, confirmed, switchRefused, deletes, revokes) =>
      Forgotten(s, broker, confirmed, switchRefused, deletes, revokes)
    case Logout(revokes) => (s.(session := SignedOut(s.session, revokes)), Done)
    case Tick(seconds) => (s.(desk := s.desk.(now := s.desk.now + seconds)), Done)
    case Rollover => (s.(session := s.session.(devices := false, recorded := {})), Done)
  }

  function Run(s: State, ops: seq<Op>): State
    decreases ops
  {
    if ops == [] then s else Run(Apply(s, ops[0]).0, ops[1..])
  }

  // ---- The live session belongs to the keys stored now ----

  predicate Matches(s: State) {
    s.session.token.Some? ==>
      Resolve(s.store, s.session.token.value.broker) == Some(s.session.token.value.openedWith)
  }

  /** A committed login whose request has not ended: its registration can still come and makes
      whatever session is stored a current one. */
  predicate Pending(d: Desk) { exists id :: id in d.logins && d.logins[id].committed }

  ghost predicate Fits(s: State) { Live(s.session) || Pending(s.desk) ==> Matches(s) }

  /** A write to one broker's keys leaves every other broker's as they were. */
  lemma WrittenElsewhere(store: Store, broker: Broker, values: Keys, redirect: Option<string>, other: Broker)
    requires other != broker
    ensures Resolve(Written(store, broker, values, redirect), other) == Resolve(store, other)
  {
  }

  /** A save of blank fields, whatever its redirect, changes no broker's keys. */
  lemma BlankKeepsKeys(store: Store, broker: Broker, redirect: Option<string>, other: Broker)
    requires Resolve(store, other).Some?
    ensures Resolve(Written(store, broker, BLANK, redirect), other) == Resolve(store, other)
  {
  }

  /** A step on a broker's keys lets its session go on exactly so: it was not current but a
      committed login is still to be registered (its slot had lapsed), or it was current,
      revoking failed and something else still makes it so. */
  predicate Survives(s: State, broker: Broker, revokes: bool) {
    && s.session.token.Some? && s.session.token.value.broker == broker
    && if Live(s.session)
       then !revokes && (broker in s.session.never || broker in s.session.recorded || Pending(s.desk))
       else Pending(s.desk)
  }

  /** The current session, if there is one, is with this broker. */
  predicate IsLiveAt(c: Session, broker: Broker) {
    c.token.Some? && c.token.value.broker == broker && (broker in c.never || broker in c.recorded || c.devices)
  }

  /** The checks a save passes before it changes anything. */
  predicate SaveGoesThrough(s: State, broker: Broker, values: Keys, redirect: Option<string>, valid: bool,
                            complete: bool, confirmed: bool, switchRefused: bool, writes: bool) {
    && valid && (values != BLANK || redirect.Some?) && (Resolve(s.store, broker).Some? || complete)
    && !(s.desk.slot.holders != {} && s.desk.slot.until > s.desk.now && s.desk.slot.broker == broker)
    && (values != BLANK && IsLiveAt(s.session, broker) ==> confirmed && !switchRefused) && writes
    && (IsEnvBroker(s.store, broker) || broker in s.store.rows || values.apiKey != "")
  }

  predicate ForgetGoesThrough(s: State, broker: Broker, confirmed: bool, switchRefused: bool, deletes: bool) {
    && !IsEnvBroker(s.store, broker) && broker in s.store.rows
    && !(s.desk.slot.holders != {} && s.desk.slot.until > s.desk.now && s.desk.slot.broker == broker)
    && (IsLiveAt(s.session, broker) ==> confirmed && !switchRefused) && deletes
  }

  predicate CommitGoesThrough(s: State, id: Login, refusedElsewhere: bool, stores: bool) {
    && id in s.desk.logins && !s.desk.logins[id].committed && Holds(s.desk, id)
    && Resolve(s.store, s.desk.logins[id].broker) == Some(s.desk.logins[id].staged) && !refusedElsewhere && stores
  }

  /** A step that leaves a session of other keys than those stored, told from the state before it:
      a save changes the keys of a session that survives it, a forget drops them, or a resume stores
      a token again whose keys were changed since it was opened. */
  predicate Breaks(s: State, op: Op) {
    match op
    case Save(broker, values, redirect, valid, complete, confirmed, switchRefused, writes, revokes) =>
      && SaveGoesThrough(s, broker, values, redirect, valid, complete, confirmed, switchRefused, writes)
      && Survives(s, broker, revokes)
      && Resolve(Written(s.store, broker, values, redirect), broker) != Resolve(s.store, broker)
    case Forget(broker, confirmed, switchRefused, deletes, revokes) =>
      ForgetGoesThrough(s, broker, confirmed, switchRefused, deletes) && Survives(s, broker, revokes)
    case Commit(id, refusedElsewhere, stores) =>
      CommitGoesThrough(s, id, refusedElsewhere, stores) &&
      s.desk.logins[id].openedWith != s.desk.logins[id].staged
    case _ => false
  }

  /** A save leaves a session of other keys behind exactly when it goes through and changes the
      keys of a session that survives it. */
  lemma SaveFitsExactly(s: State, op: Op)
    requires op.Save? && Fits(s)
    ensures Fits(Apply(s, op).0) <==> !Breaks(s, op)
  {
    if s.session.token.Some? && s.session.token.value.broker != op.broker {
      WrittenElsewhere(s.store, op.broker, op.values, op.redirect, s.session.token.value.broker);
    }
    if op.values == BLANK && Resolve(s.store, op.broker).Some? {
      BlankKeepsKeys(s.store, op.broker, op.redirect, op.broker);
    }
  }

  /** A forget does so exactly when it goes through and a session survives it. */
  lemma ForgetFitsExactly(s: State, op: Op)
    requires op.Forget? && Fits(s)
    ensures Fits(Apply(s, op).0) <==> !Breaks(s, op)
  {
  }

  /** A commit leaves a matching session exactly when the token was opened with the keys staged
      now: always for a login, and for a resume unless the keys changed since its session began. */
  lemma CommitFitsExactly(s: State, op: Op)
    requires op.Commit? && Fits(s)
    ensures Fits(Apply(s, op).0) <==> !Breaks(s, op)
    ensures Apply(s, op).1 == Done <==> CommitGoesThrough(s, op.id, op.refusedElsewhere, op.stores)
  {
    if Apply(s, op).1 == Done { assert op.id in Apply(s, op).0.desk.logins; }
  }

  /** A commit that goes through stores the login's own token, and signs the devices out only when it
      takes over from a current session of another broker; any other changes nothing. */
  lemma CommitStores(s: State, op: Op)
    requires op.Commit?
    ensures if !CommitGoesThrough(s, op.id, op.refusedElsewhere, op.stores) then Apply(s, op).0 == s
            else
              var c, a := s.session, s.desk.logins[op.id];
              var taken := c.token.Some? && c.token.value.broker != a.broker && IsLiveAt(c, c.token.value.broker);
              Apply(s, op) ==
              (State(s.store, Session(Some(Token(a.broker, a.openedWith)), c.devices && !taken, c.recorded, c.never),
                     Desk(s.desk.slot, s.desk.now,
                          s.desk.logins[op.id := Attempt(a.broker, a.staged, a.openedWith, true)])), Done)
  {
  }

  /** A registration needs a committed login of its own, and makes whatever session is stored then a
      current one; a sign-out and the rollover leave a session current only where its broker is
      recorded or its sessions outlive the day. */
  lemma CurrentUntil(s: State, op: Op)
    ensures var c, c' := s.session, Apply(s, op).0.session;
            match op
            case Register(id) =>
              && (Apply(s, op).1 == Done <==> id in s.desk.logins && s.desk.logins[id].committed)
              && (Apply(s, op).1 == Done ==>
                    c' == Session(c.token, true, c.recorded + {s.desk.logins[id].broker}, c.never))
              && (Apply(s, op).1 == Done && c.token.Some? ==> Live(c'))
            case Logout(revokes) =>
              Live(c') <==> !revokes && c.token.Some? && c.token.value.broker in c.never + c.recorded
            case Rollover => c'.token == c.token && (Live(c') <==> c.token.Some? && c.token.value.broker in c.never)
            case Tick(seconds) => Apply(s, op).0 == s.(desk := s.desk.(now := s.desk.now + seconds))
            case Begin(_, _) => c' == c
            case BeginResume(_) => c' == c
            case End(_) => c' == c
            case _ => true
  {
  }

  lemma BegunPending(d: Desk, id: Login, broker: Broker, keys: Option<Keys>, openedWith: Option<Keys>)
    ensures Pending(Begun(d, id, broker, keys, openedWith).0) ==> Pending(d)
  {
    var d' := Begun(d, id, broker, keys, openedWith).0;
    assert forall k :: k in d'.logins && d'.logins[k].committed ==> k in d.logins && d.logins[k].committed;
  }

  lemma EndedPending(d: Desk, id: Login)
    ensures Pending(Ended(d, id)) ==> Pending(d)
  {
  }

  /** Every step keeps the match exactly when it is none of those. */
  lemma FitsExactly(s: State, op: Op)
    requires Fits(s)
    ensures Fits(Apply(s, op).0) <==> !Breaks(s, op)
  {
    match op
    case Begin(id, broker) => BegunPending(s.desk, id, broker, Resolve(s.store, broker), None);
    case BeginResume(id) =>
      if s.session.token.Some? {
        var found := s.session.token.value;
        BegunPending(s.desk, id, found.broker, Resolve(s.store, found.broker), Some(found.openedWith));
      }
    case Commit(_, _, _) => CommitFitsExactly(s, op);
    case Register(id) =>
    case End(id) => EndedPending(s.desk, id);
    case Save(_, _, _, _, _, _, _, _, _) => SaveFitsExactly(s, op);
    case Forget(_, _, _, _, _) => ForgetFitsExactly(s, op);
    case Logout(revokes) =>
    case Tick(_) => assert Pending(Apply(s, op).0.desk) <==> Pending(s.desk);
    case Rollover =>
  }

  /** No step along the run is one of those. */
  predicate NeverBreaks(s: State, ops: seq<Op>)
    decreases ops
  {
    ops == [] || (!Breaks(s, ops[0]) && NeverBreaks(Apply(s, ops[0]).0, ops[1..]))
  }

  ghost predicate FitsThroughout(s: State, ops: seq<Op>)
    decreases ops
  {
    Fits(s) && (ops == [] || FitsThroughout(Apply(s, ops[0]).0, ops[1..]))
  }

  /** In every interleaving of logins, resumes, registrations, saves, forgets, sign-outs and
      rollovers, a session that is live or still to be registered was opened with the keys stored
      for its broker at the time, all along, exactly when no step is one of the three above. */
  lemma {:induction false} LiveSessionMatchesItsKeys(s: State, ops: seq<Op>)
    requires Fits(s)
    ensures FitsThroughout(s, ops) <==> NeverBreaks(s, ops)
    ensures NeverBreaks(s, ops) ==> Fits(Run(s, ops)) && (Live(Run(s, ops).session) ==> Matches(Run(s, ops)))
    decreases ops
  {
    if ops != [] {
      var s' := Apply(s, ops[0]).0;
      FitsExactly(s, ops[0]);
      if Fits(s') { LiveSessionMatchesItsKeys(s', ops[1..]); }
    }
  }

  // ---- When no step breaks it: the slot ----

  /** Who holds the slot is under way to the slot's broker. */
  predicate HoldersSound(d: Desk) {
    forall id :: id in d.slot.holders ==> id in d.logins && d.logins[id].broker == d.slot.broker
  }

  /** A committed login that still holds the slot has its broker's session stored, or none. */
  predicate SlotSound(s: State) {
    && HoldersSound(s.desk)
    && (s.session.token.Some? && s.session.token.value.broker != s.desk.slot.broker ==>
          forall id :: id in s.desk.logins && s.desk.logins[id].committed ==> !Holds(s.desk, id))
  }

  /** Every committed login still holds the slot. */
  predicate LeasesHold(d: Desk) { forall id :: id in d.logins && d.logins[id].committed ==> Holds(d, id) }

  /** Beginning commits nobody, and takes the slot only as its rules say. */
  lemma BegunKeeps(d: Desk, id: Login, broker: Broker, keys: Option<Keys>, openedWith: Option<Keys>)
    requires HoldersSound(d)
    ensures var d' := Begun(d, id, broker, keys, openedWith).0;
            HoldersSound(d') && (Pending(d') ==> Pending(d)) &&
            forall k :: k in d'.logins && d'.logins[k].committed && Holds(d', k) ==>
              Holds(d, k) && k in d.logins && d.logins[k].committed && d'.slot.broker == d.slot.broker
  {
  }

  lemma EndedKeeps(d: Desk, id: Login)
    requires HoldersSound(d)
    ensures HoldersSound(Ended(d, id)) && (Pending(Ended(d, id)) ==> Pending(d))
    ensures forall k :: k in Ended(d, id).logins && Holds(Ended(d, id), k) ==>
              Holds(d, k) && Ended(d, id).slot.broker == d.slot.broker
  {
  }

  /** Who is under way to the slot's broker stays so in every step. */
  lemma SlotSoundStep(s: State, op: Op)
    requires SlotSound(s)
    ensures SlotSound(Apply(s, op).0)
  {
    match op
    case Begin(id, broker) => BegunKeeps(s.desk, id, broker, Resolve(s.store, broker), None);
    case BeginResume(id) =>
      if s.session.token.Some? {
        var found := s.session.token.value;
        BegunKeeps(s.desk, id, found.broker, Resolve(s.store, found.broker), Some(found.openedWith));
      }
    case End(id) => EndedKeeps(s.desk, id);
    case _ =>
  }

  /** Enough for a step: sessions that have to end do end; a token a resume stores again was opened
      with the keys it was just checked with; and keys change only while every committed login
      still holds its slot. */
  predicate Sound(s: State, op: Op) {
    match op
    case Commit(id, _, _) => id in s.desk.logins ==> s.desk.logins[id].openedWith == s.desk.logins[id].staged
    case Save(_, _, _, _, _, _, _, _, revokes) => revokes && LeasesHold(s.desk)
    case Forget(_, _, _, _, revokes) => revokes && LeasesHold(s.desk)
    case _ => true
  }

  predicate AllSound(s: State, ops: seq<Op>)
    decreases ops
  {
    ops == [] || (Sound(s, ops[0]) && AllSound(Apply(s, ops[0]).0, ops[1..]))
  }

  /** While every committed login holds the slot, a session one of them could make current is
      the slot's broker's. */
  lemma PendingIsSlotBroker(s: State)
    requires SlotSound(s) && LeasesHold(s.desk) && Pending(s.desk) && s.session.token.Some?
    ensures SlotBusy(s.desk) && s.session.token.value.broker == s.desk.slot.broker
  {
  }

  lemma SoundBreaksNothing(s: State, op: Op)
    requires SlotSound(s) && Sound(s, op)
    ensures !Breaks(s, op)
  {
    if (op.Save? || op.Forget?) && Pending(s.desk) && s.session.token.Some? { PendingIsSlotBroker(s); }
  }

  /** Working revocations, leases that hold while keys change, and resumes of unchanged keys are
      enough for that, over every run. */
  lemma {:induction false} SoundRunsNeverBreak(s: State, ops: seq<Op>)
    requires Fits(s) && SlotSound(s) && AllSound(s, ops)
    ensures NeverBreaks(s, ops) && SlotSound(Run(s, ops))
    decreases ops
  {
    if ops != [] {
      SoundBreaksNothing(s, ops[0]);
      FitsExactly(s, ops[0]);
      SlotSoundStep(s, ops[0]);
      SoundRunsNeverBreak(Apply(s, ops[0]).0, ops[1..]);
    }
  }

  /** When a login or a resume may begin, and what it then has: the slot for 120 seconds, together with
      the other logins to its broker if there are any, and the keys stored now; a resume has it alone,
      and brings the keys its session was opened with. */
  lemma BeginsExactly(d: Desk, id: Login, broker: Broker, keys: Option<Keys>, openedWith: Option<Keys>)
    ensures var (d', reply) := Begun(d, id, broker, keys, openedWith);
            var taken := d.slot.holders != {} && d.slot.until > d.now;
            var others := (if taken && d.slot.broker == broker then d.slot.holders else {});
            && (reply == Invalid <==> id in d.logins)
            && (reply == Busy <==>
                id !in d.logins && taken && (openedWith.Some? || d.slot.exclusive || d.slot.broker != broker))
            && (reply == Refused ==>
                  keys.None? && d'.logins == d.logins &&
                  if others - {id} == {} then d'.slot == Slot("", {}, 0, false)
                  else d'.slot == Slot(broker, others - {id}, d.now + 120, openedWith.Some?))
            && (reply == Done ==>
                  keys.Some? && d'.slot == Slot(broker, others + {id}, d.now + 120, openedWith.Some?) &&
                  d'.logins == d.logins[id := Attempt(broker, keys.value, if openedWith.Some? then openedWith.value
                                                                          else keys.value, false)])
            && reply in {Invalid, Busy, Refused, Done} && (reply in {Invalid, Busy} ==> d' == d) && d'.now == d.now
  {
    var others := if d.slot.holders != {} && d.slot.until > d.now && d.slot.broker == broker then d.slot.holders
                  else {};
    assert others + {id} - {id} == others - {id};
  }

  /** A login that ends leaves the slot to the others that hold it, or free. */
  lemma EndFrees(s: State, op: Op)
    requires op.End?
    ensures var slot, left := s.desk.slot, (s.desk.slot.holders - {op.id});
            Apply(s, op).0.desk ==
            Desk(if left == {} then Slot("", {}, 0, false) else Slot(slot.broker, left, slot.until, slot.exclusive),
                 s.desk.now, s.desk.logins - {op.id})
  {
  }

  /** A resume has the slot to itself. */
  predicate ExclusiveAlone(slot: Slot) {
    slot.exclusive ==> forall a, b :: a in slot.holders && b in slot.holders ==> a == b
  }

  lemma AloneStep(s: State, op: Op)
    requires ExclusiveAlone(s.desk.slot)
    ensures ExclusiveAlone(Apply(s, op).0.desk.slot)
  {
  }

  lemma {:induction false} ResumesRunAlone(s: State, ops: seq<Op>)
    requires ExclusiveAlone(s.desk.slot)
    ensures ExclusiveAlone(Run(s, ops).desk.slot)
    decreases ops
  {
    if ops != [] {
      AloneStep(s, ops[0]);
      ResumesRunAlone(Apply(s, ops[0]).0, ops[1..]);
    }
  }

  // ---- Runs that break it ----

  lemma RunCons(s: State, op: Op, rest: seq<Op>)
    ensures Run(s, [op] + rest) == Run(Apply(s, op).0, rest)
  {
  }

  function OneRow(broker: Broker, keys: Keys): Store { Store(None, map[broker := keys], map[], "") }

  /** Every field given anew. */
  predicate NewSet(before: Keys, after: Keys) {
    && before != after && before.apiKey != "" && after.apiKey != "" && after.apiSecret != ""
    && after.marketKey != "" && after.marketSecret != ""
  }

  /** Yesterday's session, new keys saved over it without ending it, and a resume that the
      broker lets through: live with keys that are no longer stored. */
  lemma StaleResume(broker: Broker, before: Keys, after: Keys)
    requires NewSet(before, after)
    ensures var yesterday := Session(Some(Token(broker, before)), false, {}, {});
            var s := State(OneRow(broker, before), yesterday, Desk(EmptySlot(), 0, map[]));
            var s' := Run(s, [Save(broker, after, None, true, true, false, false, true, true), BeginResume(1),
                              Commit(1, false, true), Register(1)]);
            Fits(s) && SlotSound(s) && Live(s'.session) && !Matches(s')
  {
    var yesterday := Session(Some(Token(broker, before)), false, {}, {});
    var s := State(OneRow(broker, before), yesterday, Desk(EmptySlot(), 0, map[]));
    var save := Save(broker, after, None, true, true, false, false, true, true);
    var held := Slot(broker, {1}, LOGIN_SLOT_SECONDS, true);
    var s1 := State(OneRow(broker, after), yesterday, Desk(EmptySlot(), 0, map[]));
    var s2 := s1.(desk := Desk(held, 0, map[1 := Attempt(broker, after, before, false)]));
    var s3 := s1.(desk := Desk(held, 0, map[1 := Attempt(broker, after, before, true)]));
    var s4 := s3.(session := Session(Some(Token(broker, before)), true, {broker}, {}));
    assert Apply(s, save).0 == s1;
    assert Apply(s1, BeginResume(1)).0 == s2;
    assert Apply(s2, Commit(1, false, true)).0 == s3;
    assert Apply(s3, Register(1)).0 == s4;
    RunCons(s, save, [BeginResume(1), Commit(1, false, true), Register(1)]);
    RunCons(s1, BeginResume(1), [Commit(1, false, true), Register(1)]);
    RunCons(s2, Commit(1, false, true), [Register(1)]);
    RunCons(s3, Register(1), []);
  }

  /** A login that commits, is overtaken by its lease, and registers after new keys were saved. */
  lemma LapsedLease(broker: Broker, before: Keys, after: Keys)
    requires NewSet(before, after)
    ensures var s := State(OneRow(broker, before), Session(None, false, {}, {}), Desk(EmptySlot(), 0, map[]));
            var s' := Run(s, [Begin(1, broker), Commit(1, false, true), Tick(LOGIN_SLOT_SECONDS),
                              Save(broker, after, None, true, true, false, false, true, true), Register(1)]);
            Fits(s) && SlotSound(s) && Live(s'.session) && !Matches(s')
  {
    var s := State(OneRow(broker, before), Session(None, false, {}, {}), Desk(EmptySlot(), 0, map[]));
    var save := Save(broker, after, None, true, true, false, false, true, true);
    var held := Slot(broker, {1}, LOGIN_SLOT_SECONDS, false);
    var done := map[1 := Attempt(broker, before, before, true)];
    var stored := Session(Some(Token(broker, before)), false, {}, {});
    var s1 := s.(desk := Desk(held, 0, map[1 := Attempt(broker, before, before, false)]));
    var s2 := State(s.store, stored, Desk(held, 0, done));
    var s3 := State(s.store, stored, Desk(held, LOGIN_SLOT_SECONDS, done));
    var s4 := s3.(store := OneRow(broker, after));
    var s5 := s4.(session := Session(Some(Token(broker, before)), true, {broker}, {}));
    assert Apply(s, Begin(1, broker)).0 == s1;
    assert Apply(s1, Commit(1, false, true)).0 == s2;
    assert Apply(s2, Tick(LOGIN_SLOT_SECONDS)).0 == s3;
    assert Apply(s3, save).0 == s4;
    assert Apply(s4, Register(1)).0 == s5;
    RunCons(s, Begin(1, broker), [Commit(1, false, true), Tick(LOGIN_SLOT_SECONDS), save, Register(1)]);
    RunCons(s1, Commit(1, false, true), [Tick(LOGIN_SLOT_SECONDS), save, Register(1)]);
    RunCons(s2, Tick(LOGIN_SLOT_SECONDS), [save, Register(1)]);
    RunCons(s3, save, [Register(1)]);
    RunCons(s4, Register(1), []);
  }

  // ---- What a save and a forget do ----

  /** The keys stored for a broker, whether or not they are enough to log in with. */
  function StoredKeys(store: Store, broker: Broker): Keys {
    if store.env.Some? && store.env.value.broker == broker then store.env.value.keys
    else if broker in store.rows then store.rows[broker]
    else Keys("", "", "", "")
  }

  /** A field given takes the place of the one stored; one left blank keeps it. */
  predicate FieldKept(before: string, given: string, after: string) {
    (given != "" ==> after == given) && (given == "" ==> after == before)
  }

  predicate FieldsKept(before: Keys, given: Keys, after: Keys) {
    && FieldKept(before.apiKey, given.apiKey, after.apiKey)
    && FieldKept(before.apiSecret, given.apiSecret, after.apiSecret)
    && FieldKept(before.marketKey, given.marketKey, after.marketKey)
    && FieldKept(before.marketSecret, given.marketSecret, after.marketSecret)
  }

  /** A login uses the keys stored for its broker; a row without an API key counts as none. */
  lemma ResolvesStored(store: Store, broker: Broker)
    ensures Resolve(store, broker) ==
            if IsEnvBroker(store, broker) || StoredKeys(store, broker).apiKey != "" then Some(StoredKeys(store, broker))
            else None
  {
  }

  /** A save answers Done exactly when every check lets it through; told for a row, a new row and the
      .env broker, it then stores each field given, keeps each field left blank, and stores them
      where they were. */
  lemma SaveStores(s: State, op: Op)
    requires op.Save?
    ensures Apply(s, op).1 == Done <==>
            SaveGoesThrough(s, op.broker, op.values, op.redirect, op.valid, op.complete, op.confirmed,
                            op.switchRefused, op.writes)
    ensures Apply(s, op).1 == Done ==>
              var before, after := s.store, Apply(s, op).0.store;
              && FieldsKept(StoredKeys(before, op.broker), op.values, StoredKeys(after, op.broker))
              && after.host == before.host
              && (if IsEnvBroker(before, op.broker)
                  then after.rows == before.rows && IsEnvBroker(after, op.broker)
                  else after.env == before.env && after.rows.Keys == before.rows.Keys + {op.broker})
  {
  }

  /** Whose keys a stored save changes, and how. */
  lemma SaveChanges(s: State, op: Op, other: Broker)
    requires op.Save? && Apply(s, op).1 == Done
    ensures var s' := Apply(s, op).0;
            && s'.store == Written(s.store, op.broker, op.values, op.redirect)
            && (other != op.broker ==> Resolve(s'.store, other) == Resolve(s.store, other))
            && (Resolve(s.store, op.broker).Some? ==>
                  Resolve(s'.store, op.broker) == Some(Merge(Resolve(s.store, op.broker).value, op.values)))
  {
    if other != op.broker { WrittenElsewhere(s.store, op.broker, op.values, op.redirect, other); }
  }

  /** What a stored save does to the session. */
  lemma SaveEnds(s: State, op: Op)
    requires op.Save? && Apply(s, op).1 == Done
    ensures var s' := Apply(s, op).0;
            && s'.desk == s.desk
            && (op.values == BLANK || !IsLiveAt(s.session, op.broker) ==> s'.session == s.session)
            && (op.values != BLANK && IsLiveAt(s.session, op.broker) ==>
                  op.confirmed && !op.switchRefused &&
                  s'.session == Session(if op.revokes then None else s.session.token, false, s.session.recorded,
                                        s.session.never))
  {
  }

  /** A stored save keeps every blank field, touches no other broker's keys, and leaves every
      session alone unless it gave new keys to the logged-in broker. */
  lemma SaveOutcome(s: State, op: Op, other: Broker)
    requires op.Save? && Apply(s, op).1 == Done
    ensures var s' := Apply(s, op).0;
            && s'.desk == s.desk
            && (other != op.broker ==> Resolve(s'.store, other) == Resolve(s.store, other))
            && (Resolve(s.store, op.broker).Some? ==>
                  Resolve(s'.store, op.broker) == Some(Merge(Resolve(s.store, op.broker).value, op.values)))
            && FieldsKept(StoredKeys(s.store, op.broker), op.values, StoredKeys(s'.store, op.broker))
            && (op.values == BLANK || !IsLiveAt(s.session, op.broker) ==> s'.session == s.session)
            && (op.values != BLANK && IsLiveAt(s.session, op.broker) ==>
                  op.confirmed && !op.switchRefused &&
                  s'.session == Session(if op.revokes then None else s.session.token, false, s.session.recorded,
                                        s.session.never))
  {
    SaveStores(s, op);
    SaveChanges(s, op, other);
    SaveEnds(s, op);
  }

  /** The address a login to a broker returns to: an empty one means the automatic address. */
  function ReturnAddress(store: Store, broker: Broker): string {
    if broker in store.redirects && store.redirects[broker] != "" then store.redirects[broker]
    else DefaultRedirect(store, broker)
  }

  /** A given redirect takes effect, an empty one as the automatic address, whichever way it is
      stored; no other broker's changes, and none does when none is given. */
  lemma RedirectTakesEffect(store: Store, broker: Broker, values: Keys, redirect: Option<string>, other: Broker)
    ensures ReturnAddress(Written(store, broker, values, redirect), other) ==
            if other != broker || redirect.None? then ReturnAddress(store, other)
            else if redirect.value == "" then store.host + "/" + broker + "/callback" else redirect.value
    ensures ReturnAddress(store.(redirects := map[]), broker) == store.host + "/" + broker + "/callback"
  {
  }

  /** The .env file always holds the address in full; a row holds none for the automatic one. */
  lemma RedirectStored(store: Store, broker: Broker, values: Keys, redirect: Option<string>)
    requires redirect.Some?
    ensures var after := Written(store, broker, values, redirect).redirects;
            var automatic := store.host + "/" + broker + "/callback";
            broker in after && after[broker] == (if !IsEnvBroker(store, broker)
                                                 then (if redirect.value == automatic then "" else redirect.value)
                                                 else if redirect.value == "" then automatic else redirect.value)
  {
  }

  /** A save that is not stored changes nothing; a forget that is not carried out changes
      nothing unless the removal itself failed, by which time a live session has been ended. */
  lemma RefusalsChangeNothing(s: State, op: Op)
    requires (op.Save? || op.Forget?) && Apply(s, op).1 != Done
    ensures Apply(s, op).0 ==
            if Apply(s, op).1 == WriteFailed && op.Forget? && IsLiveAt(s.session, op.broker)
            then s.(session := Session(if op.revokes then None else s.session.token, false, s.session.recorded,
                                       s.session.never))
            else s
  {
  }

  /** A save or a forget that is refused is refused for the reason it answers. */
  lemma ReasonsHold(s: State, op: Op)
    requires op.Save? || op.Forget?
    ensures var reply, slot := Apply(s, op).1, s.desk.slot;
            && (reply == Busy ==> slot.holders != {} && slot.until > s.desk.now && slot.broker == op.broker)
            && (reply == Unconfirmed ==> IsLiveAt(s.session, op.broker) && !op.confirmed)
            && (reply == SwitchRefused ==> IsLiveAt(s.session, op.broker) && op.switchRefused)
            && (reply == WriteFailed ==> if op.Save? then !op.writes else !op.deletes)
            && (reply == Invalid ==> if op.Forget? then IsEnvBroker(s.store, op.broker)
                                     else !op.valid || (op.values == BLANK && op.redirect.None?) ||
                                          (Resolve(s.store, op.broker).None? &&
                                           (!op.complete || (op.broker !in s.store.rows && op.values.apiKey == ""))))
            && reply in {Done, Busy, Unconfirmed, SwitchRefused, WriteFailed, Invalid, NotFound}
            && (reply == NotFound ==> op.Forget?)
  {
  }

  /** A forget answers Done exactly when every check lets it through, and then the row and its
      redirect are gone and all others are there. */
  lemma ForgetStores(s: State, op: Op)
    requires op.Forget?
    ensures Apply(s, op).1 == Done <==>
            ForgetGoesThrough(s, op.broker, op.confirmed, op.switchRefused, op.deletes)
    ensures Apply(s, op).1 == NotFound <==> !IsEnvBroker(s.store, op.broker) && op.broker !in s.store.rows
    ensures Apply(s, op).1 == Done ==>
              Apply(s, op).0.store ==
              Store(s.store.env, s.store.rows - {op.broker}, s.store.redirects - {op.broker}, s.store.host)
  {
  }

  /** Forgetting removes that broker's row and no other, and never the .env broker's. */
  lemma ForgetOutcome(s: State, op: Op, other: Broker)
    requires op.Forget? && Apply(s, op).1 == Done
    ensures var s' := Apply(s, op).0;
            && s'.desk == s.desk && s'.store.env == s.store.env
            && !IsEnvBroker(s.store, op.broker) && Resolve(s'.store, op.broker) == None
            && (other != op.broker ==> Resolve(s'.store, other) == Resolve(s.store, other))
            && (LiveAt(s.session, op.broker) && op.revokes ==> s'.session.token == None)
            && (!LiveAt(s.session, op.broker) ==> s'.session == s.session)
  {
  }

  /** A login under way keeps its broker's keys as they are: no step but its own time running
      out lets a save or a forget of them through. */
  lemma LoginKeepsItsKeys(s: State, op: Op, id: Login)
    requires HoldersSound(s.desk) && Holds(s.desk, id)
    ensures var broker := s.desk.logins[id].broker; Resolve(Apply(s, op).0.store, broker) == Resolve(s.store, broker)
  {
  }

  // ---- The requests, step by step ----

  /** A login or a resume that begins takes nothing from the match. */
  lemma BegunFits(s: State, id: Login, broker: Broker, keys: Option<Keys>, openedWith: Option<Keys>)
    ensures var s' := s.(desk := Begun(s.desk, id, broker, keys, openedWith).0);
            (Fits(s) ==> Fits(s')) && (SlotSound(s) ==> SlotSound(s'))
  {
    BegunPending(s.desk, id, broker, keys, openedWith);
    if SlotSound(s) { BegunKeeps(s.desk, id, broker, keys, openedWith); }
  }

  predicate SameElsewhere(before: Store, after: Store, broker: Broker, other: Broker) {
    other != broker ==> Resolve(after, other) == Resolve(before, other)
  }

  /** Only a login that holds its slot no more can find its broker's keys changed. */
  ghost predicate HeldKeysStay(desk: Desk, before: Store, after: Store) {
    forall id :: id in desk.logins && Holds(desk, id) ==>
      Resolve(after, desk.logins[id].broker) == Resolve(before, desk.logins[id].broker)
  }

  lemma KeysKept(s: State, op: Op)
    requires op.Save? || op.Forget?
    ensures var s' := Apply(s, op).0;
            && s'.desk == s.desk
            && (forall other :: SameElsewhere(s.store, s'.store, op.broker, other))
            && (HoldersSound(s.desk) ==> HeldKeysStay(s.desk, s.store, s'.store))
  {
    var s' := Apply(s, op).0;
    forall other ensures SameElsewhere(s.store, s'.store, op.broker, other) && s'.desk == s.desk {
      if Apply(s, op).1 != Done { RefusalsChangeNothing(s, op); }
      else if op.Save? { SaveOutcome(s, op, other); }
      else { ForgetOutcome(s, op, other); }
    }
    if HoldersSound(s.desk) {
      forall id | id in s.desk.logins && Holds(s.desk, id)
        ensures Resolve(s'.store, s.desk.logins[id].broker) == Resolve(s.store, s.desk.logins[id].broker)
      {
        LoginKeepsItsKeys(s, op, id);
      }
    }
  }

  /** What a save and a forget keep: a live session's keys stay those it was opened with exactly
      when the step does not break that, no other broker's keys change, and none that a login under
      way is working with. */
  ghost predicate KeysLaw(s: State, s': State, broker: Broker, breaks: bool) {
    && (Fits(s) ==> (Fits(s') <==> !breaks)) && (SlotSound(s) ==> SlotSound(s'))
    && (forall other :: SameElsewhere(s.store, s'.store, broker, other))
    && (HoldersSound(s.desk) ==> HeldKeysStay(s.desk, s.store, s'.store))
  }

  /** A save that is carried out changes the given fields only, and signs a session out exactly
      when it gave new keys to its broker and that was confirmed; a refused one changes nothing. */
  ghost predicate SaveLaw(s: State, reply: Reply, s': State, broker: Broker, values: Keys, confirmed: bool,
                          revokes: bool) {
    && (reply != Done ==> s' == s)
    && (reply == Done && Resolve(s.store, broker).Some? ==>
          Resolve(s'.store, broker) == Some(Merge(Resolve(s.store, broker).value, values)))
    && (reply == Done ==> FieldsKept(StoredKeys(s.store, broker), values, StoredKeys(s'.store, broker)))
    && (values == BLANK || !LiveAt(s.session, broker) ==> s'.session == s.session)
    && (reply == Done && values != BLANK && LiveAt(s.session, broker) ==>
          confirmed && !s'.session.devices && (revokes ==> s'.session.token == None))
  }

  /** A forget removes the keys or leaves them all; the session of the broker is over by the time
      the removal is tried, and no other refusal touches it. */
  ghost predicate ForgetLaw(s: State, reply: Reply, s': State, broker: Broker, confirmed: bool, revokes: bool) {
    && (reply == Done ==> Resolve(s'.store, broker) == None)
    && (reply != Done ==> s'.store == s.store)
    && (if (reply == Done || reply == WriteFailed) && LiveAt(s.session, broker)
        then confirmed && !s'.session.devices && (revokes ==> s'.session.token == None)
        else s'.session == s.session)
  }

  lemma SaveKeeps(s: State, op: Op)
    requires op.Save?
    ensures KeysLaw(s, Apply(s, op).0, op.broker, Breaks(s, op))
    ensures SaveLaw(s, Apply(s, op).1, Apply(s, op).0, op.broker, op.values, op.confirmed, op.revokes)
  {
    KeysKept(s, op);
    if Fits(s) { SaveFitsExactly(s, op); }
    if SlotSound(s) { SlotSoundStep(s, op); }
    if Apply(s, op).1 == Done { SaveOutcome(s, op, op.broker); } else { RefusalsChangeNothing(s, op); }
  }

  lemma ForgetKeeps(s: State, op: Op)
    requires op.Forget?
    ensures KeysLaw(s, Apply(s, op).0, op.broker, Breaks(s, op))
    ensures ForgetLaw(s, Apply(s, op).1, Apply(s, op).0, op.broker, op.confirmed, op.revokes)
  {
    KeysKept(s, op);
    if Fits(s) { ForgetFitsExactly(s, op); }
    if SlotSound(s) { SlotSoundStep(s, op); }
    if Apply(s, op).1 == Done { ForgetOutcome(s, op, op.broker); } else { RefusalsChangeNothing(s, op); }
  }

  class Deployment {
    const host: string
    const never: set<Broker>
    var env: Option<Env>
    var rows: map<Broker, Keys>
    var redirects: map<Broker, string>
    var token: Option<Token>
    var devices: bool
    var recorded: set<Broker>
    var slot: Slot
    var now: nat
    var logins: map<Login, Attempt>

    constructor (s: State)
      ensures View() == s
    {
      host, never := s.store.host, s.session.never;
      env, rows, redirects := s.store.env, s.store.rows, s.store.redirects;
      token, devices, recorded := s.session.token, s.session.devices, s.session.recorded;
      slot, now, logins := s.desk.slot, s.desk.now, s.desk.logins;
    }

    function Keyring(): Store
      reads this
    {
      Store(env, rows, redirects, host)
    }

    function Current(): Session
      reads this
    {
      Session(token, devices, recorded, never)
    }

    function Counter(): Desk
      reads this
    {
      Desk(slot, now, logins)
    }

    function View(): State
      reads this
    {
      State(Keyring(), Current(), Counter())
    }

    method HoldLoginSlot(id: Login, broker: Broker, exclusive: bool) returns (held: bool)
      modifies this`slot
      ensures held == old(MayHold(Counter(), broker, exclusive))
      ensures slot == if held then old(Held(Counter(), id, broker, exclusive)) else old(slot)
      ensures held ==> Holds(Counter(), id) && slot.broker == broker && ExclusiveAlone(slot)
      ensures held && old(LoginUnderWay(Counter(), broker)) ==> old(slot.holders) <= slot.holders
      ensures held ==> forall k :: k != id && k in slot.holders ==>
                old(Holds(Counter(), k)) && old(slot.broker) == broker && !exclusive && !old(slot.exclusive)
      ensures !held ==> SlotBusy(Counter())
    {
      var busy := slot.holders != {} && slot.until > now;
      if busy && (exclusive || slot.exclusive || slot.broker != broker) { return false; }
      var holders := slot.holders;
      if slot.broker != broker || !busy {
        holders := {};
      }
      slot := Slot(broker, holders + {id}, now + LOGIN_SLOT_SECONDS, exclusive);
      return true;
    }

    method ReleaseLoginSlot(id: Login)
      modifies this`slot
      ensures slot == ReleasedSlot(old(slot), id)
      ensures forall k :: Holds(Counter(), k) <==> k != id && old(Holds(Counter(), k))
      ensures SlotBusy(Counter()) <==> exists k :: k != id && old(Holds(Counter(), k))
      ensures old(ExclusiveAlone(slot)) ==> ExclusiveAlone(slot)
    {
      ghost var left := slot.holders - {id};
      slot := slot.(holders := slot.holders - {id});
      if slot.holders == {} {
        slot := EmptySlot();
      }
      if SlotBusy(Counter()) {
        assert left != {};
        ghost var k :| k in left;
        assert k != id && old(Holds(Counter(), k));
      }
    }

    method BeginBrokerLogin(id: Login, broker: Broker, openedWith: Option<Keys>) returns (reply: Reply)
      modifies this`slot, this`logins
      ensures (Counter(), reply) == old(Begun(Counter(), id, broker, Resolve(Keyring(), broker), openedWith))
      ensures reply == Done ==>
                Holds(Counter(), id) && logins[id].broker == broker && !logins[id].committed &&
                Resolve(Keyring(), broker) == Some(logins[id].staged) &&
                logins[id].openedWith == (if openedWith.Some? then openedWith.value else logins[id].staged)
      ensures reply == Refused ==> !Holds(Counter(), id)
      ensures logins == if reply == Done then old(logins)[id := logins[id]] else old(logins)
      ensures reply == Done ==> id !in old(logins)
      ensures old(Fits(View())) ==> Fits(View())
      ensures old(SlotSound(View())) ==> SlotSound(View())
    {
      BegunFits(View(), id, broker, Resolve(Keyring(), broker), openedWith);
      if id in logins { return Invalid; }
      var held := HoldLoginSlot(id, broker, openedWith.Some?);
      if !held { return Busy; }
      var keys := Resolve(Keyring(), broker);
      if keys.None? {
        ReleaseLoginSlot(id);
        return Refused;
      }
      var with := if openedWith.Some? then openedWith.value else keys.value;
      logins := logins[id := Attempt(broker, keys.value, with, false)];
      return Done;
    }

    method CommitLogin(id: Login, refusedElsewhere: bool, stores: bool) returns (reply: Reply)
      modifies this`token, this`devices, this`logins
      ensures (View(), reply) == old(Committed(View(), id, refusedElsewhere, stores))
      ensures reply == Done ==>
                token == Some(Token(logins[id].broker, logins[id].openedWith)) && logins[id].committed &&
                Holds(Counter(), id) && Resolve(Keyring(), logins[id].broker) == Some(logins[id].staged)
      ensures reply == Done && old(Fits(View())) ==> (Fits(View()) <==> logins[id].openedWith == logins[id].staged)
      ensures old(SlotSound(View())) ==> SlotSound(View())
      ensures reply != Done ==> View() == old(View())
    {
      ghost var s, op := View(), Commit(id, refusedElsewhere, stores);
      if Fits(s) { CommitFitsExactly(s, op); }
      if SlotSound(s) { SlotSoundStep(s, op); }
      if id !in logins || logins[id].committed { return Invalid; }
      var a := logins[id];
      if id !in slot.holders || slot.until <= now { return Refused; }
      if Resolve(Keyring(), a.broker) != Some(a.staged) || refusedElsewhere { return Refused; }
      if !stores { return WriteFailed; }
      var previous := if Live(Current()) then Some(token.value.broker) else None;
      token := Some(Token(a.broker, a.openedWith));
      if previous.Some? && previous.value != a.broker {
        devices := false;
      }
      logins := logins[id := a.(committed := true)];
      return Done;
    }

    method EndBrokerSession(revokes: bool)
      modifies this`token, this`devices
      ensures Current() == old(SignedOut(Current(), revokes))
      ensures !devices && (revokes ==> !Live(Current()))
      ensures Live(Current()) ==> old(Live(Current())) && token == old(token)
      ensures old(Fits(View())) ==> Fits(View())
      ensures old(SlotSound(View())) ==> SlotSound(View())
    {
      if revokes {
        token := None;
      }
      devices := false;
    }

    /** The body of a save, run under the commit guard. */
    method PutKeys(broker: Broker, values: Keys, redirect: Option<string>, valid: bool, complete: bool,
                   confirmed: bool, switchRefused: bool, writes: bool, revokes: bool) returns (reply: Reply)
      modifies this`env, this`rows, this`redirects, this`token, this`devices
      ensures (View(), reply) ==
              old(Saved(View(), broker, values, redirect, valid, complete, confirmed, switchRefused, writes, revokes))
    {
      var hasKeys := values != BLANK;
      if !valid || (!hasKeys && redirect.None?) { return Invalid; }
      if Resolve(Keyring(), broker).None? && !complete { return Invalid; }
      if LoginUnderWay(Counter(), broker) { return Busy; }
      if hasKeys && LiveAt(Current(), broker) {
        if !confirmed { return Unconfirmed; }
        if switchRefused { return SwitchRefused; }
      }
      if !writes { return WriteFailed; }
      if IsEnvBroker(Keyring(), broker) {
        redirects := Redirects(Keyring(), broker, redirect);
        env := Some(Env(broker, Merge(env.value.keys, values)));
      } else {
        if broker !in rows && values.apiKey == "" { return Invalid; }
        redirects := Redirects(Keyring(), broker, redirect);
        rows := rows[broker := Merge(if broker in rows then rows[broker] else BLANK, values)];
      }
      if hasKeys && LiveAt(Current(), broker) {
        EndBrokerSession(revokes);
      }
      return Done;
    }

    method SaveBroker(broker: Broker, values: Keys, redirect: Option<string>, valid: bool, complete: bool,
                      confirmed: bool, switchRefused: bool, writes: bool, revokes: bool) returns (reply: Reply)
      modifies this`env, this`rows, this`redirects, this`token, this`devices
      ensures (View(), reply) ==
              old(Saved(View(), broker, values, redirect, valid, complete, confirmed, switchRefused, writes, revokes))
      ensures KeysLaw(old(View()), View(), broker,
                      Breaks(old(View()), Save(broker, values, redirect, valid, complete, confirmed, switchRefused,
                                               writes, revokes)))
      ensures SaveLaw(old(View()), reply, View(), broker, values, confirmed, revokes)
    {
      ghost var s := View();
      ghost var op := Save(broker, values, redirect, valid, complete, confirmed, switchRefused, writes, revokes);
      reply := PutKeys(broker, values, redirect, valid, complete, confirmed, switchRefused, writes, revokes);
      ghost var s' := View();
      assert Apply(s, op) == (s', reply);
      SaveKeeps(s, op);
    }

    /** The body of a forget, run under the commit guard. */
    method DropKeys(broker: Broker, confirmed: bool, switchRefused: bool, deletes: bool, revokes: bool)
      returns (reply: Reply)
      modifies this`rows, this`redirects, this`token, this`devices
      ensures (View(), reply) == old(Forgotten(View(), broker, confirmed, switchRefused, deletes, revokes))
    {
      if IsEnvBroker(Keyring(), broker) { return Invalid; }
      if broker !in rows { return NotFound; }
      if LoginUnderWay(Counter(), broker) { return Busy; }
      if LiveAt(Current(), broker) {
        if !confirmed { return Unconfirmed; }
        if switchRefused { return SwitchRefused; }
        EndBrokerSession(revokes);
      }
      if !deletes { return WriteFailed; }
      rows, redirects := Without(rows, broker), Without(redirects, broker);
      return Done;
    }

    method ForgetBroker(broker: Broker, confirmed: bool, switchRefused: bool, deletes: bool, revokes: bool)
      returns (reply: Reply)
      modifies this`rows, this`redirects, this`token, this`devices
      ensures (View(), reply) == old(Forgotten(View(), broker, confirmed, switchRefused, deletes, revokes))
      ensures KeysLaw(old(View()), View(), broker,
                      Breaks(old(View()), Forget(broker, confirmed, switchRefused, deletes, revokes)))
      ensures ForgetLaw(old(View()), reply, View(), broker, confirmed, revokes)
    {
      ghost var s, op := View(), Forget(broker, confirmed, switchRefused, deletes, revokes);
      reply := DropKeys(broker, confirmed, switchRefused, deletes, revokes);
      ghost var s' := View();
      assert Apply(s, op) == (s', reply);
      ForgetKeeps(s, op);
    }
  }
}
