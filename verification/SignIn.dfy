/** The two-step sign-in of one browser (blueprints/auth.py, login, login_totp,
    two_factor_configure and logout): a session that holds a signed-in user, or for five minutes
    a user whose password was right and whose code is still to come, or neither. */
module SignIn {
  import opened Wrappers

  type User = string

  const PENDING_TOTP_MAX_AGE_SECS: nat := 300

  /** The switches of one account's second factor. */
  datatype Account = Account(totpEnabled: bool, totpForLogin: bool, totpForMcp: bool, totpForReset: bool)
  {
    predicate RequiresCode() { totpEnabled && totpForLogin }
  }

  /** The browser's session, its accounts and the clock. */
  datatype State = State(user: Option<User>, loggedIn: bool, pending: Option<User>, startedAt: Option<nat>,
                         verifiedAt: Option<nat>, accounts: map<User, Account>, now: nat)

  /** What happened that matters here: a password or a code was right, or the session was wiped. */
  datatype Event =
    | PasswordAccepted(user: User, at: nat, codeRequired: bool)
    | CodeAccepted(user: User, at: nat)
    | Wiped

  datatype Op =
    | LoginPost(username: User, passwordRight: bool, sessionValid: bool, resumes: bool)
    | LoginGet(sessionValid: bool)
    | LoginTotp(codeGiven: bool, codeRight: bool, resumes: bool)
    | Configure(codeGiven: bool, codeRight: bool, sessionValid: bool, asked: Account)
    | BrokerLogin
    | Logout(foreign: bool)
    | Tick(seconds: nat)

  datatype Reply = Ok | SetupFirst | AlreadyIn | CodeNeeded | Invalid | Expired | NoPending | NotFound | Refused

  function Cleared(s: State): State {
    s.(user := None, loggedIn := false, pending := None, startedAt := None, verifiedAt := None)
  }

  /** Without a pending login. */
  function Unparked(s: State): State { s.(pending := None, startedAt := None) }

  predicate Fresh(s: State) { s.startedAt.Some? && s.now <= s.startedAt.value + PENDING_TOTP_MAX_AGE_SECS }

  /** The password step proper, on a session with nobody signed in. */
  function PasswordStep(s: State, username: User, passwordRight: bool, resumes: bool): (State, Reply, seq<Event>) {
    if !passwordRight || username !in s.accounts then (s, Invalid, [])
    else
      var required := s.accounts[username].RequiresCode();
      var accepted := [PasswordAccepted(username, s.now, required)];
      if required then (Cleared(s).(pending := Some(username), startedAt := Some(s.now)), CodeNeeded, accepted)
      else (Cleared(s).(user := Some(username), loggedIn := resumes), Ok, accepted)
  }

  function Posted(s: State, username: User, passwordRight: bool, sessionValid: bool, resumes: bool)
    : (State, Reply, seq<Event>)
  {
    if s.accounts == map[] then (s, SetupFirst, [])
    else if s.loggedIn && sessionValid then (s, AlreadyIn, [])
    else
      var (open, wiped) := if s.loggedIn then (Cleared(s), [Wiped]) else (s, []);
      if open.user.Some? then (open, AlreadyIn, wiped)
      else
        var (s', reply, events) := PasswordStep(open, username, passwordRight, resumes);
        (s', reply, wiped + events)
  }

  function CodePosted(s: State, codeGiven: bool, codeRight: bool, resumes: bool): (State, Reply, seq<Event>) {
    if !Fresh(s) then (Unparked(s), Expired, [])
    else if s.pending.None? then (s, NoPending, [])
    else if !codeGiven || !codeRight || s.pending.value !in s.accounts then (s, Invalid, [])
    else
      var user := s.pending.value;
      (Unparked(s).(user := Some(user), verifiedAt := Some(s.now), loggedIn := s.loggedIn || resumes), Ok,
       [CodeAccepted(user, s.now)])
  }

  /** The purposes count only while the master switch is on. */
  function Settled(asked: Account): Account {
    if asked.totpEnabled then asked else Account(false, false, false, false)
  }

  function Configured(s: State, codeGiven: bool, codeRight: bool, sessionValid: bool, asked: Account)
    : (State, Reply, seq<Event>)
  {
    if !s.loggedIn then (s, Refused, [])
    else if !sessionValid then (Cleared(s), Refused, [Wiped])
    else if !codeGiven then (s, Invalid, [])
    else if s.user.None? || s.user.value !in s.accounts then (s, NotFound, [])
    else if !codeRight then (s, Invalid, [])
    else (s.(accounts := s.accounts[s.user.value := Settled(asked)], verifiedAt := Some(s.now)), Ok, [])
  }

  function Apply(s: State, op: Op): (State, Reply, seq<Event>) {
    match op
    case LoginPost(username, passwordRight, sessionValid, resumes) =>
      Posted(s, username, passwordRight, sessionValid, resumes)
    case LoginGet(sessionValid) =>
      if s.accounts != map[] && s.loggedIn && !sessionValid then (Cleared(s), Ok, [Wiped]) else (s, Ok, [])
    case LoginTotp(codeGiven, codeRight, resumes) => CodePosted(s, codeGiven, codeRight, resumes)
    case Configure(codeGiven, codeRight, sessionValid, asked) =>
      Configured(s, codeGiven, codeRight, sessionValid, asked)
    case BrokerLogin => if s.user.Some? then (s.(loggedIn := true), Ok, []) else (s, Refused, [])
    case Logout(foreign) => if foreign then (s, Refused, []) else (Cleared(s), Ok, [Wiped])
    case Tick(seconds) => (s.(now := s.now + seconds), Ok, [])
  }

  function Run(s: State, ops: seq<Op>): State
    decreases ops
  {
    if ops == [] then s else Run(Apply(s, ops[0]).0, ops[1..])
  }

  function Log(s: State, ops: seq<Op>): seq<Event>
    decreases ops
  {
    if ops == [] then [] else Apply(s, ops[0]).2 + Log(Apply(s, ops[0]).0, ops[1..])
  }

  /** A browser that has never been here. */
  function Start(accounts: map<User, Account>, now: nat): State {
    State(None, false, None, None, None, accounts, now)
  }

  // ---- What every trace keeps ----

  /** Never a signed-in user and a pending one; a broker login only for a signed-in user; a
      pending one always with its start, which has passed. */
  predicate Sound(s: State) {
    && (s.user.None? || s.pending.None?) && (s.loggedIn ==> s.user.Some?)
    && (s.pending.Some? <==> s.startedAt.Some?) && (s.startedAt.Some? ==> s.startedAt.value <= s.now)
  }

  /** From this place on the log holds codes only: no other password step, and no wipe. */
  predicate Since(log: seq<Event>, i: int) { forall k :: i < k < |log| && 0 <= k ==> log[k].CodeAccepted? }

  /** The session's own password step, the last one since it was wiped, was this user's, with a
      code soon enough after it when one was required then. */
  ghost predicate Proved(log: seq<Event>, user: User) {
    exists i :: 0 <= i < |log| && log[i].PasswordAccepted? && log[i].user == user && Since(log, i) &&
      (log[i].codeRequired ==> CodeAfter(log, i))
  }

  ghost predicate CodeAfter(log: seq<Event>, i: nat)
    requires i < |log| && log[i].PasswordAccepted?
  {
    exists j :: i < j < |log| && log[j].CodeAccepted? && log[j].user == log[i].user &&
      log[i].at <= log[j].at <= log[i].at + PENDING_TOTP_MAX_AGE_SECS
  }

  /** A pending login's password step is the last thing in the log, at the time it was parked. */
  ghost predicate Parked(log: seq<Event>, user: User, at: nat) {
    log != [] && log[|log| - 1] == PasswordAccepted(user, at, true)
  }

  ghost predicate Earned(s: State, log: seq<Event>) {
    && (s.user.Some? ==> Proved(log, s.user.value))
    && (s.pending.Some? && s.startedAt.Some? ==> Parked(log, s.pending.value, s.startedAt.value))
  }

  lemma SoundStep(s: State, op: Op)
    requires Sound(s)
    ensures Sound(Apply(s, op).0)
  {
  }

  /** The code of a fresh pending login proves its user. */
  lemma CodeProves(log: seq<Event>, user: User, at: nat, now: nat)
    requires Parked(log, user, at) && at <= now <= at + PENDING_TOTP_MAX_AGE_SECS
    ensures Proved(log + [CodeAccepted(user, now)], user)
  {
    var longer := log + [CodeAccepted(user, now)];
    var i := |log| - 1;
    assert longer[i] == log[i] && longer[|log|] == CodeAccepted(user, now);
    assert CodeAfter(longer, i) && Since(longer, i);
  }

  lemma PasswordEarns(s: State, log: seq<Event>, username: User, passwordRight: bool, resumes: bool)
    requires Earned(s, log) && s.user.None?
    ensures var (s', _, events) := PasswordStep(s, username, passwordRight, resumes); Earned(s', log + events)
  {
    var (s', _, events) := PasswordStep(s, username, passwordRight, resumes);
    if events == [] {
      assert log + events == log;
    } else {
      assert (log + events)[|log|] == events[0] && Since(log + events, |log|);
    }
  }

  lemma EarnedStep(s: State, log: seq<Event>, op: Op)
    requires Sound(s) && Earned(s, log)
    ensures Earned(Apply(s, op).0, log + Apply(s, op).2)
  {
    var (s', _, events) := Apply(s, op);
    if events == [] { assert log + events == log; }
    match op
    case LoginPost(username, passwordRight, sessionValid, resumes) =>
      if s.loggedIn && !(sessionValid || s.accounts == map[]) {
        PasswordEarns(Cleared(s), log + [Wiped], username, passwordRight, resumes);
        Assoc(log, [Wiped], PasswordStep(Cleared(s), username, passwordRight, resumes).2);
      } else if s.user.None? {
        PasswordEarns(s, log, username, passwordRight, resumes);
        assert [] + PasswordStep(s, username, passwordRight, resumes).2
            == PasswordStep(s, username, passwordRight, resumes).2;
      }
    case LoginTotp(_, _, _) =>
      if events != [] { CodeProves(log, s.pending.value, s.startedAt.value, s.now); }
    case _ =>
  }

  /** Over every trace a session never holds both a signed-in user and a pending one. */
  lemma {:induction false} NeverBoth(s: State, ops: seq<Op>)
    requires Sound(s)
    ensures Sound(Run(s, ops)) && (Run(s, ops).user.None? || Run(s, ops).pending.None?)
    decreases ops
  {
    if ops != [] {
      SoundStep(s, ops[0]);
      NeverBoth(Apply(s, ops[0]).0, ops[1..]);
    }
  }

  lemma {:induction false} EarnedAlong(s: State, log: seq<Event>, ops: seq<Op>)
    requires Sound(s) && Earned(s, log)
    ensures Earned(Run(s, ops), log + Log(s, ops))
    decreases ops
  {
    if ops == [] {
      assert log + Log(s, ops) == log;
    } else {
      var (s', _, events) := Apply(s, ops[0]);
      SoundStep(s, ops[0]);
      EarnedStep(s, log, ops[0]);
      EarnedAlong(s', log + events, ops[1..]);
      Assoc(log, events, Log(s', ops[1..]));
    }
  }

  /** Whoever is signed in passed the password step since the session was last wiped, and a code
      no more than five minutes later if the account required one at that step, whatever was
      configured since. */
  lemma SignedInWasEarned(accounts: map<User, Account>, now: nat, ops: seq<Op>)
    ensures var s, log := Run(Start(accounts, now), ops), Log(Start(accounts, now), ops);
            s.user.Some? ==> Proved(log, s.user.value)
  {
    EarnedAlong(Start(accounts, now), [], ops);
    assert [] + Log(Start(accounts, now), ops) == Log(Start(accounts, now), ops);
  }

  // ---- What one step does ----

  /** Only these requests sign anyone in: a right password where no code is required, and a right
      code for a login parked no more than five minutes ago. */
  lemma SignsInExactly(s: State, op: Op)
    requires Sound(s) && s.user.None?
    ensures Apply(s, op).0.user.Some? <==>
            (op.LoginPost? && op.passwordRight && op.username in s.accounts &&
             !(s.accounts[op.username].totpEnabled && s.accounts[op.username].totpForLogin)) ||
            (op.LoginTotp? && op.codeGiven && op.codeRight && s.pending.Some? && s.pending.value in s.accounts &&
             s.now <= s.startedAt.value + 300)
    ensures Apply(s, op).0.user.Some? ==>
              Apply(s, op).0.user.value == if op.LoginPost? then op.username else s.pending.value
  {
  }

  /** What is told of a right password is the user asked for, the time it came, and whether the
      account's switches ask for a code at that step; of a right code, the parked user and its time. */
  lemma EventsTell(s: State, op: Op, i: nat)
    requires i < |Apply(s, op).2|
    ensures match Apply(s, op).2[i]
            case PasswordAccepted(user, at, codeRequired) =>
              op.LoginPost? && op.passwordRight && user == op.username && at == s.now && user in s.accounts &&
              codeRequired == (s.accounts[user].totpEnabled && s.accounts[user].totpForLogin)
            case CodeAccepted(user, at) => op.LoginTotp? && op.codeRight && s.pending == Some(user) && at == s.now
            case Wiped => Apply(s, op).0.user.None? || i + 1 < |Apply(s, op).2|
  {
  }

  /** A login request is let through to the password unless there is no account yet or somebody is
      signed in, and then changes nothing. A right password, over a wiped session when its broker
      login had ended, either signs the user in or, when the account's switches ask for a code,
      parks the login at that time. */
  lemma PasswordAnswers(s: State, op: Op)
    requires op.LoginPost? && Sound(s)
    ensures var (s', reply, _) := Apply(s, op);
            && (reply == SetupFirst <==> s.accounts == map[])
            && (reply == AlreadyIn <==> s.accounts != map[] && s.user.Some? && (s.loggedIn ==> op.sessionValid))
            && (reply in {SetupFirst, AlreadyIn} ==> s' == s)
            && (reply == Invalid ==> s' == if s.loggedIn then Start(s.accounts, s.now) else s)
            && (s.accounts != map[] && (s.user.None? || (s.loggedIn && !op.sessionValid)) ==>
                  if !op.passwordRight || op.username !in s.accounts then reply == Invalid
                  else if s.accounts[op.username].totpEnabled && s.accounts[op.username].totpForLogin
                  then reply == CodeNeeded &&
                       s' == State(None, false, Some(op.username), Some(s.now), None, s.accounts, s.now)
                  else reply == Ok &&
                       s' == State(Some(op.username), op.resumes, None, None, None, s.accounts, s.now))
  {
  }

  /** A code for a parked login: too late it ends the login, wrong it leaves everything, and right it
      signs the user in and is remembered as the time of the second factor. */
  lemma CodeAnswers(s: State, op: Op)
    requires op.LoginTotp? && Sound(s)
    ensures var (s', reply, _) := Apply(s, op);
            if s.pending.None? || s.now > s.startedAt.value + 300
            then reply == Expired && s'.pending.None? && s'.startedAt.None? && s'.user == s.user &&
                 s'.loggedIn == s.loggedIn && s'.verifiedAt == s.verifiedAt
            else if op.codeGiven && op.codeRight && s.pending.value in s.accounts
            then reply == Ok && s' == State(s.pending, op.resumes, None, None, Some(s.now), s.accounts, s.now)
            else reply == Invalid && s' == s
  {
  }

  /** Only these requests wipe a session: a logout from the site itself, and any of the three that
      look at the broker login when it has ended. Whoever is signed in stays so otherwise. */
  lemma WipedExactly(s: State, op: Op)
    requires Sound(s)
    ensures Wiped in Apply(s, op).2 <==>
            (op.Logout? && !op.foreign) ||
            (s.loggedIn && ((op.Configure? && !op.sessionValid) ||
                            (s.accounts != map[] && (op.LoginPost? || op.LoginGet?) && !op.sessionValid)))
    ensures Wiped in Apply(s, op).2 && !op.LoginPost? ==> Apply(s, op).0 == Start(s.accounts, s.now)
    ensures Wiped !in Apply(s, op).2 && s.user.Some? ==>
              Apply(s, op).0.user == s.user && (s.loggedIn ==> Apply(s, op).0.loggedIn)
  {
  }

  /** A broker login begins with the broker's own, for a signed-in user, or with a sign-in that
      resumes one; no other request begins it. */
  lemma BrokerInExactly(s: State, op: Op)
    requires Sound(s) && !s.loggedIn
    ensures Apply(s, op).0.loggedIn <==>
            (op.BrokerLogin? && s.user.Some?) ||
            ((op.LoginPost? || op.LoginTotp?) && op.resumes && s.user.None? && Apply(s, op).0.user.Some?)
  {
  }

  /** The time of the second factor is that of the last right code; a wipe or a new password
      forgets it. The clock moves by itself alone. */
  lemma VerifiedExactly(s: State, op: Op)
    requires Sound(s)
    ensures var (s', reply, events) := Apply(s, op);
            && s'.now == s.now + (if op.Tick? then op.seconds else 0)
            && s'.verifiedAt ==
               (if reply == Ok && (op.LoginTotp? || op.Configure?) then Some(s.now)
                else if Wiped in events || (exists e :: e in events && e.PasswordAccepted?) then None
                else s.verifiedAt)
  {
    if op.LoginPost? && Apply(s, op).1 in {Ok, CodeNeeded} {
      var events := Apply(s, op).2;
      assert events[|events| - 1].PasswordAccepted?;
    }
  }

  /** A pending login that has run out cannot be finished, however many codes are tried: only a
      password starts another. */
  lemma {:induction false} ExpiredNeedsThePassword(s: State, ops: seq<Op>)
    requires Sound(s) && s.user.None? && (s.pending.Some? ==> !Fresh(s))
    requires forall op :: op in ops ==> !op.LoginPost? || !op.passwordRight
    ensures Run(s, ops).user.None?
    decreases ops
  {
    if ops != [] {
      assert ops[0] in ops;
      SoundStep(s, ops[0]);
      ExpiredNeedsThePassword(Apply(s, ops[0]).0, ops[1..]);
    }
  }

  /** No purpose is on while the master switch is off, and only a signed-in user with a right code
      changes an account, its own. */
  predicate Consistent(accounts: map<User, Account>) {
    forall user :: user in accounts && !accounts[user].totpEnabled ==>
      accounts[user] == Account(false, false, false, false)
  }

  lemma ConfigureExactly(s: State, op: Op)
    requires Consistent(s.accounts)
    ensures Consistent(Apply(s, op).0.accounts)
    ensures Apply(s, op).0.accounts != s.accounts ==> op.Configure? && Apply(s, op).1 == Ok
    ensures op.Configure? && s.user.Some? ==>
              (Apply(s, op).1 == Ok <==>
               s.loggedIn && op.sessionValid && op.codeGiven && op.codeRight && s.user.value in s.accounts)
    ensures op.Configure? && s.user.Some? && Apply(s, op).1 == Ok ==>
              var on := op.asked.totpEnabled;
              Apply(s, op).0.accounts ==
              s.accounts[s.user.value := Account(on, on && op.asked.totpForLogin, on && op.asked.totpForMcp,
                                                 on && op.asked.totpForReset)]
  {
  }

  /** Why a change of the switches is refused, and that it then leaves a session still valid alone. */
  lemma ConfigureRefusals(s: State, op: Op)
    requires op.Configure? && Sound(s)
    ensures var (s', reply, _) := Apply(s, op);
            && (reply == Refused <==> !s.loggedIn || !op.sessionValid)
            && (reply == NotFound <==>
                s.loggedIn && op.sessionValid && op.codeGiven && s.user.value !in s.accounts)
            && (reply != Ok && (s.loggedIn ==> op.sessionValid) ==> s' == s)
  {
  }

  // ---- The requests, step by step ----

  lemma StepKeeps(s: State, log: seq<Event>, op: Op)
    requires Sound(s) && Earned(s, log)
    ensures Sound(Apply(s, op).0) && Earned(Apply(s, op).0, log + Apply(s, op).2)
  {
    SoundStep(s, op);
    EarnedStep(s, log, op);
  }

  class BrowserSession {
    var user: Option<User>
    var loggedIn: bool
    var pending: Option<User>
    var startedAt: Option<nat>
    var verifiedAt: Option<nat>
    var accounts: map<User, Account>
    var now: nat
    ghost var log: seq<Event>  // the right passwords and codes, and the wipes, so far

    constructor (accounts: map<User, Account>, now: nat)
      ensures View() == Start(accounts, now) && log == [] && Valid()
    {
      log := [];
      user, loggedIn, pending, startedAt, verifiedAt := None, false, None, None, None;
      this.accounts, this.now := accounts, now;
    }

    function View(): State
      reads this
    {
      State(user, loggedIn, pending, startedAt, verifiedAt, accounts, now)
    }

    /** Nobody is both signed in and pending, and whoever is either has earned it. */
    ghost predicate Valid()
      reads this
    {
      Sound(View()) && Earned(View(), log)
    }

    method Clear()
      modifies this`user, this`loggedIn, this`pending, this`startedAt, this`verifiedAt
      ensures View() == old(Cleared(View()))
    {
      user, loggedIn, pending, startedAt, verifiedAt := None, false, None, None, None;
    }

    method ClearPendingTotp()
      modifies this`pending, this`startedAt
      ensures View() == old(Unparked(View()))
    {
      pending := None;
      startedAt := None;
    }

    /** The password step of login(), with nobody signed in. */
    method PasswordReply(username: User, passwordRight: bool, resumes: bool) returns (reply: Reply)
      modifies this`user, this`loggedIn, this`pending, this`startedAt, this`verifiedAt
      ensures var (s, r, _) := old(PasswordStep(View(), username, passwordRight, resumes)); View() == s && reply == r
    {
      if !passwordRight || username !in accounts { return Invalid; }
      Clear();
      if accounts[username].RequiresCode() {
        user := None;
        pending := Some(username);
        startedAt := Some(now);
        return CodeNeeded;
      }
      user := Some(username);
      loggedIn := resumes;
      return Ok;
    }

    method Login(username: User, passwordRight: bool, sessionValid: bool, resumes: bool) returns (reply: Reply)
      requires Valid()
      modifies this
      ensures Valid() && accounts == old(accounts)
      ensures (View(), reply, log) ==
              var (s, r, events) := old(Posted(View(), username, passwordRight, sessionValid, resumes));
              (s, r, old(log) + events)
      ensures reply == Ok ==>
                user == Some(username) && passwordRight && username in accounts &&
                !(accounts[username].totpEnabled && accounts[username].totpForLogin)
      ensures reply == CodeNeeded ==>
                user == None && pending == Some(username) && startedAt == Some(now) && passwordRight &&
                username in accounts && accounts[username].totpEnabled && accounts[username].totpForLogin
      ensures reply != Ok && user.Some? ==> user == old(user)
    {
      ghost var op := LoginPost(username, passwordRight, sessionValid, resumes);
      StepKeeps(View(), log, op);
      log := log + Apply(View(), op).2;
      if accounts == map[] { return SetupFirst; }
      if loggedIn {
        if sessionValid { return AlreadyIn; }
        Clear();
      }
      if user.Some? { return AlreadyIn; }
      reply := PasswordReply(username, passwordRight, resumes);
    }

    method LoginCode(codeGiven: bool, codeRight: bool, resumes: bool) returns (reply: Reply)
      requires Valid()
      modifies this
      ensures Valid() && accounts == old(accounts)
      ensures (View(), reply, log) ==
              var (s, r, events) := old(CodePosted(View(), codeGiven, codeRight, resumes));
              (s, r, old(log) + events)
      ensures reply == Ok <==>
              codeGiven && codeRight && old(pending).Some? && old(pending).value in accounts &&
              now <= old(startedAt).value + 300
      ensures reply == Ok ==> user == old(pending) && pending == None
      ensures reply == Expired ==> pending == None
      ensures reply == Invalid ==> View() == old(View())
      ensures reply != Ok ==> user == old(user)
    {
      ghost var op := LoginTotp(codeGiven, codeRight, resumes);
      StepKeeps(View(), log, op);
      log := log + Apply(View(), op).2;
      if startedAt.None? || now > startedAt.value + PENDING_TOTP_MAX_AGE_SECS {
        ClearPendingTotp();
        return Expired;
      }
      if pending.None? { return NoPending; }
      if !codeGiven { return Invalid; }
      if pending.value !in accounts || !codeRight { return Invalid; }
      user := pending;
      verifiedAt := Some(now);
      ClearPendingTotp();
      if resumes {
        loggedIn := true;
      }
      return Ok;
    }

    method ConfigureTwoFactor(codeGiven: bool, codeRight: bool, sessionValid: bool, asked: Account)
      returns (reply: Reply)
      requires Valid()
      modifies this
      ensures Valid()
      ensures (View(), reply, log) ==
              var (s, r, events) := old(Configured(View(), codeGiven, codeRight, sessionValid, asked));
              (s, r, old(log) + events)
      ensures reply == Ok <==>
              old(loggedIn) && sessionValid && codeGiven && codeRight && old(user).value in old(accounts)
      ensures reply == Ok ==>
                var on := asked.totpEnabled;
                user == old(user) &&
                accounts == old(accounts)[user.value := Account(on, on && asked.totpForLogin,
                                                                on && asked.totpForMcp, on && asked.totpForReset)]
      ensures reply != Ok ==> accounts == old(accounts)
      ensures old(Consistent(accounts)) ==> Consistent(accounts)
      ensures user.Some? ==> user == old(user)
    {
      ghost var op := Configure(codeGiven, codeRight, sessionValid, asked);
      StepKeeps(View(), log, op);
      log := log + Apply(View(), op).2;
      if !loggedIn || !sessionValid {
        if loggedIn {
          Clear();
        }
        return Refused;
      }
      if !codeGiven { return Invalid; }
      if user.None? || user.value !in accounts { return NotFound; }
      if !codeRight { return Invalid; }
      var enabled := asked.totpEnabled;
      var changed := Account(enabled, enabled && asked.totpForLogin, enabled && asked.totpForMcp,
                             enabled && asked.totpForReset);
      accounts := accounts[user.value := changed];
      verifiedAt := Some(now);
      return Ok;
    }

    method LogOut(foreign: bool) returns (reply: Reply)
      requires Valid()
      modifies this
      ensures Valid() && accounts == old(accounts) && now == old(now)
      ensures foreign ==> View() == old(View()) && log == old(log) && reply == Refused
      ensures !foreign ==> user == None && pending == None && !loggedIn && log == old(log) + [Wiped] && reply == Ok
    {
      StepKeeps(View(), log, Logout(foreign));
      log := log + Apply(View(), Logout(foreign)).2;
      if foreign { return Refused; }
      Clear();
      return Ok;
    }
  }
}
