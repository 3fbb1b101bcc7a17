/** Attempts, generations and sessions: what every interleaving of Start, the callback, the
    worker, Logout and maintenance keeps. */
module LoginSafety {
  import opened AccessModel
  import opened Text

  type Bindings = map<string, Binding>
  type Attempts = map<AttemptKey, Attempt>
  type Sessions = map<string, Session>

  /** An attempt never outruns its binding, and a live one carries exactly the binding's pair. */
  ghost predicate AttemptOk(b: Bindings, k: AttemptKey, row: Attempt) {
    && !row.purpose.Switch?
    && k.binding in b
    && row.attempt <= b[k.binding].attempt
    && (Live(row.state) ==> row.identity == b[k.binding].identity && row.attempt == b[k.binding].attempt)
  }

  ghost predicate AttemptsOk(b: Bindings, a: Attempts) {
    forall k {:trigger AttemptOk(b, k, a[k])} | k in a :: AttemptOk(b, k, a[k])
  }

  ghost predicate SameGeneration(a: Attempts, k1: AttemptKey, k2: AttemptKey)
    requires k1 in a && k2 in a
  {
    k1 != k2 && k1.binding == k2.binding && a[k1].attempt == a[k2].attempt
  }

  /** An attempt generation is used once per binding. */
  ghost predicate GenerationsUnique(a: Attempts) {
    forall k1, k2 {:trigger SameGeneration(a, k1, k2)} | k1 in a && k2 in a :: !SameGeneration(a, k1, k2)
  }

  ghost predicate SessionOk(b: Bindings, a: Attempts, row: Session) {
    && row.binding in b
    && row.generation <= b[row.binding].identity
    && row.mintedBy in a
    && row.mintedBy.binding == row.binding
    && a[row.mintedBy].state.Confirmed?
  }

  ghost predicate SessionsOk(b: Bindings, a: Attempts, ss: Sessions) {
    forall h {:trigger SessionOk(b, a, ss[h])} | h in ss :: SessionOk(b, a, ss[h])
  }

  ghost predicate Rivals(ss: Sessions, h1: string, h2: string)
    requires h1 in ss && h2 in ss
  {
    && h1 != h2
    && (|| ss[h1].mintedBy == ss[h2].mintedBy
        || (ss[h1].binding == ss[h2].binding && !ss[h1].revoked && !ss[h2].revoked))
  }

  /** One session per attempt and one unrevoked session per binding. */
  ghost predicate NoRivals(ss: Sessions) {
    forall h1, h2 {:trigger Rivals(ss, h1, h2)} | h1 in ss && h2 in ss :: !Rivals(ss, h1, h2)
  }

  ghost predicate LoginInv(l: Logins) {
    && AttemptsOk(l.bindings, l.attempts)
    && GenerationsUnique(l.attempts)
    && SessionsOk(l.bindings, l.attempts, l.sessions)
    && NoRivals(l.sessions)
  }

  // ---- what no step takes back ----

  ghost predicate BindingsGrow(b: Bindings, b': Bindings) {
    forall x | x in b :: x in b' && b[x].identity <= b'[x].identity && b[x].attempt <= b'[x].attempt
  }

  ghost predicate AttemptsGrow(a: Attempts, a': Attempts) {
    forall k | k in a ::
      && k in a'
      && a'[k].purpose == a[k].purpose && a'[k].identity == a[k].identity && a'[k].attempt == a[k].attempt
      && (!Live(a[k].state) ==> a'[k].state == a[k].state)
  }

  ghost predicate SessionsGrow(ss: Sessions, ss': Sessions) {
    forall h | h in ss ::
      && h in ss'
      && ss'[h].binding == ss[h].binding && ss'[h].generation == ss[h].generation
      && ss'[h].mintedBy == ss[h].mintedBy
      && (ss[h].revoked ==> ss'[h].revoked)
  }

  ghost predicate Progress(l: Logins, m: Logins) {
    BindingsGrow(l.bindings, m.bindings) && AttemptsGrow(l.attempts, m.attempts) && SessionsGrow(l.sessions, m.sessions)
  }

  lemma GenerationsKept(a: Attempts, a': Attempts)
    requires GenerationsUnique(a) && AttemptsGrow(a, a') && a'.Keys == a.Keys
    ensures GenerationsUnique(a')
  {
    forall k1, k2 | k1 in a' && k2 in a' ensures !SameGeneration(a', k1, k2) {
      assert !SameGeneration(a, k1, k2);
    }
  }

  lemma GenerationsAdded(a: Attempts, a': Attempts, k: AttemptKey)
    requires GenerationsUnique(a) && AttemptsGrow(a, a') && k !in a && a'.Keys == a.Keys + {k}
    requires forall x | x in a && x.binding == k.binding :: a[x].attempt < a'[k].attempt
    ensures GenerationsUnique(a')
  {
    forall k1, k2 | k1 in a' && k2 in a' ensures !SameGeneration(a', k1, k2) {
      assert k1 in a && k2 in a ==> !SameGeneration(a, k1, k2);
    }
  }

  lemma RivalsKept(ss: Sessions, ss': Sessions)
    requires NoRivals(ss) && SessionsGrow(ss, ss') && ss'.Keys == ss.Keys
    ensures NoRivals(ss')
  {
    forall h1, h2 | h1 in ss' && h2 in ss' ensures !Rivals(ss', h1, h2) {
      assert !Rivals(ss, h1, h2);
    }
  }

  lemma RivalsAdded(ss: Sessions, ss': Sessions, h: string)
    requires NoRivals(ss) && SessionsGrow(ss, ss') && h !in ss && ss'.Keys == ss.Keys + {h}
    requires forall x | x in ss :: ss'[x].mintedBy != ss'[h].mintedBy
    requires forall x | x in ss && ss'[x].binding == ss'[h].binding :: ss'[x].revoked
    ensures NoRivals(ss')
  {
    forall h1, h2 | h1 in ss' && h2 in ss' ensures !Rivals(ss', h1, h2) {
      assert h1 in ss && h2 in ss ==> !Rivals(ss, h1, h2);
    }
  }

  // ---- one step ----

  /** A step that moves attempts along their state graph and touches nothing else of a login. */
  ghost predicate Moves(l: Logins, m: Logins) {
    && m.bindings == l.bindings
    && m.attempts.Keys == l.attempts.Keys
    && AttemptsGrow(l.attempts, m.attempts)
    && m.sessions.Keys == l.sessions.Keys
    && SessionsGrow(l.sessions, m.sessions)
  }

  lemma MovesKeep(l: Logins, m: Logins)
    requires LoginInv(l) && Moves(l, m)
    ensures LoginInv(m) && Progress(l, m)
  {
    GenerationsKept(l.attempts, m.attempts);
    RivalsKept(l.sessions, m.sessions);
    forall k | k in m.attempts ensures AttemptOk(m.bindings, k, m.attempts[k]) {
      assert AttemptOk(l.bindings, k, l.attempts[k]);
    }
    forall h | h in m.sessions ensures SessionOk(m.bindings, m.attempts, m.sessions[h]) {
      assert SessionOk(l.bindings, l.attempts, l.sessions[h]);
    }
  }

  // ---- Start's rows ----

  ghost predicate StartRequires(l: Logins, key: AttemptKey, b: Binding, row: Attempt) {
    && LoginInv(l) && key !in l.attempts
    && (if key.binding in l.bindings then b == l.bindings[key.binding] else b.identity == 0 && b.attempt == 0)
    && !row.purpose.Switch? && row.identity == b.identity && row.attempt == b.attempt + 1
  }

  lemma StartedGrows(l: Logins, key: AttemptKey, b: Binding, row: Attempt)
    requires StartRequires(l, key, b, row)
    ensures Progress(l, Started(l, key, b, row))
  {
  }

  lemma StartedAttempts(l: Logins, key: AttemptKey, b: Binding, row: Attempt, m: Logins)
    requires StartRequires(l, key, b, row) && m == Started(l, key, b, row)
    ensures AttemptsOk(m.bindings, m.attempts)
  {
    forall k | k in m.attempts ensures AttemptOk(m.bindings, k, m.attempts[k]) {
      assert k in l.attempts ==> AttemptOk(l.bindings, k, l.attempts[k]);
    }
  }

  lemma StartedUnique(l: Logins, key: AttemptKey, b: Binding, row: Attempt, m: Logins)
    requires StartRequires(l, key, b, row) && m == Started(l, key, b, row)
    ensures GenerationsUnique(m.attempts)
  {
    forall k | k in l.attempts && k.binding == key.binding ensures l.attempts[k].attempt < m.attempts[key].attempt {
      assert AttemptOk(l.bindings, k, l.attempts[k]);
    }
    GenerationsAdded(l.attempts, m.attempts, key);
  }

  lemma StartedSessions(l: Logins, key: AttemptKey, b: Binding, row: Attempt, m: Logins)
    requires StartRequires(l, key, b, row) && m == Started(l, key, b, row)
    ensures SessionsOk(m.bindings, m.attempts, m.sessions) && NoRivals(m.sessions)
  {
    forall h | h in m.sessions ensures SessionOk(m.bindings, m.attempts, m.sessions[h]) {
      assert SessionOk(l.bindings, l.attempts, l.sessions[h]);
    }
  }

  // ---- the confirmation's rows ----

  /** Of one binding at most one attempt is live. */
  lemma OthersDead(l: Logins, key: AttemptKey)
    requires LoginInv(l) && key in l.attempts && Live(l.attempts[key].state)
    ensures forall k | k in l.attempts && k.binding == key.binding && k != key :: !Live(l.attempts[k].state)
  {
    assert AttemptOk(l.bindings, key, l.attempts[key]);
    forall k | k in l.attempts && k.binding == key.binding && k != key ensures !Live(l.attempts[k].state) {
      assert AttemptOk(l.bindings, k, l.attempts[k]) && !SameGeneration(l.attempts, k, key);
    }
  }

  ghost predicate GrantRequires(l: Logins, now: nat, key: AttemptKey, hash: string) {
    LoginInv(l) && ConfirmAllowed(l, now, key) && hash !in l.sessions
  }

  lemma GrantedGrows(l: Logins, now: nat, key: AttemptKey, actor: Actor, hash: string)
    requires GrantRequires(l, now, key, hash)
    ensures Progress(l, Granted(l, now, key, actor, hash))
  {
  }

  lemma GrantedAttempts(l: Logins, now: nat, key: AttemptKey, actor: Actor, hash: string, m: Logins)
    requires GrantRequires(l, now, key, hash) && m == Granted(l, now, key, actor, hash)
    ensures AttemptsOk(m.bindings, m.attempts) && GenerationsUnique(m.attempts)
  {
    GenerationsKept(l.attempts, m.attempts);
    OthersDead(l, key);
    forall k | k in m.attempts ensures AttemptOk(m.bindings, k, m.attempts[k]) {
      assert AttemptOk(l.bindings, k, l.attempts[k]);
    }
  }

  lemma GrantedSessions(l: Logins, now: nat, key: AttemptKey, actor: Actor, hash: string, m: Logins)
    requires GrantRequires(l, now, key, hash) && m == Granted(l, now, key, actor, hash)
    ensures SessionsOk(m.bindings, m.attempts, m.sessions)
  {
    forall h | h in m.sessions ensures SessionOk(m.bindings, m.attempts, m.sessions[h]) {
      assert h in l.sessions ==> SessionOk(l.bindings, l.attempts, l.sessions[h]);
    }
  }

  lemma GrantedUnique(l: Logins, now: nat, key: AttemptKey, actor: Actor, hash: string, m: Logins)
    requires GrantRequires(l, now, key, hash) && m == Granted(l, now, key, actor, hash)
    ensures NoRivals(m.sessions)
  {
    forall h | h in l.sessions ensures l.sessions[h].mintedBy != key {
      assert SessionOk(l.bindings, l.attempts, l.sessions[h]);
    }
    RivalsAdded(l.sessions, m.sessions, hash);
  }

  // ---- Logout's rows ----

  lemma LoggedOutGrows(l: Logins, hash: string)
    requires LoginInv(l)
    ensures Progress(l, LoggedOut(l, hash))
  {
  }

  lemma LoggedOutAttempts(l: Logins, hash: string, m: Logins)
    requires LoginInv(l) && m == LoggedOut(l, hash)
    ensures AttemptsOk(m.bindings, m.attempts) && GenerationsUnique(m.attempts)
  {
    GenerationsKept(l.attempts, m.attempts);
    forall k | k in m.attempts ensures AttemptOk(m.bindings, k, m.attempts[k]) {
      assert AttemptOk(l.bindings, k, l.attempts[k]);
    }
  }

  lemma LoggedOutSessions(l: Logins, hash: string, m: Logins)
    requires LoginInv(l) && m == LoggedOut(l, hash)
    ensures SessionsOk(m.bindings, m.attempts, m.sessions) && NoRivals(m.sessions)
  {
    RivalsKept(l.sessions, m.sessions);
    forall h | h in m.sessions ensures SessionOk(m.bindings, m.attempts, m.sessions[h]) {
      assert SessionOk(l.bindings, l.attempts, l.sessions[h]);
    }
  }

  // ---- every step ----

  lemma RowMoves(l: Logins, key: AttemptKey, row: Attempt)
    requires LoginInv(l) && key in l.attempts
    requires row.purpose == l.attempts[key].purpose && row.identity == l.attempts[key].identity
    requires row.attempt == l.attempts[key].attempt
    requires Live(l.attempts[key].state) || row.state == l.attempts[key].state
    ensures var m := l.(attempts := l.attempts[key := row]); LoginInv(m) && Progress(l, m)
  {
    MovesKeep(l, l.(attempts := l.attempts[key := row]));
  }

  lemma StartKeeps(s: State, pid: Pid, lost: bool)
    requires LoginInv(s.login)
    ensures LoginInv(StartCommit(s, pid, lost).login) && Progress(s.login, StartCommit(s, pid, lost).login)
  {
    var m := StartCommit(s, pid, lost).login;
    if m != s.login {
      var p := s.procs[pid];
      var b := StartBinding(s, p).value;
      var row := StartRow(s, p, b);
      StartedGrows(s.login, p.key, b, row);
      StartedAttempts(s.login, p.key, b, row, m);
      StartedUnique(s.login, p.key, b, row, m);
      StartedSessions(s.login, p.key, b, row, m);
    }
  }

  lemma ConfirmKeeps(s: State, pid: Pid, grant: Grant, disabled: bool, lost: bool)
    requires LoginInv(s.login)
    ensures LoginInv(ConfirmCommit(s, pid, grant, disabled, lost).login)
    ensures Progress(s.login, ConfirmCommit(s, pid, grant, disabled, lost).login)
  {
    var m := ConfirmCommit(s, pid, grant, disabled, lost).login;
    if m != s.login {
      var p := s.procs[pid];
      if Stale(s, p.actor, s.login.attempts[p.key]) {
        RowMoves(s.login, p.key, s.login.attempts[p.key].(state := Superseded));
      } else {
        GrantedGrows(s.login, s.now, p.key, p.actor, grant.hash);
        GrantedAttempts(s.login, s.now, p.key, p.actor, grant.hash, m);
        GrantedSessions(s.login, s.now, p.key, p.actor, grant.hash, m);
        GrantedUnique(s.login, s.now, p.key, p.actor, grant.hash, m);
      }
    }
  }

  lemma LogoutKeeps(l: Logins, hash: string)
    requires LoginInv(l)
    ensures LoginInv(LoggedOut(l, hash)) && Progress(l, LoggedOut(l, hash))
  {
    LoggedOutGrows(l, hash);
    LoggedOutAttempts(l, hash, LoggedOut(l, hash));
    LoggedOutSessions(l, hash, LoggedOut(l, hash));
  }

  lemma CallbackKeeps(s: State, pid: Pid, key: AttemptKey, code: CodeReply)
    requires LoginInv(s.login)
    ensures LoginInv(CallbackBegin(s, pid, key, code).login) && Progress(s.login, CallbackBegin(s, pid, key, code).login)
  {
    var m := CallbackBegin(s, pid, key, code).login;
    if m != s.login {
      RowMoves(s.login, key, m.attempts[key]);
    }
  }

  /** The guarded single-row updates: unknownAttempt, the token store and the mismatch rejection. */
  lemma UpdateKeeps(s: State, pid: Pid, a: LoginAction)
    requires LoginInv(s.login) && (a.DoMarkUnknown? || a.DoStoreToken? || a.DoRejectAttempt?)
    ensures LoginInv(ApplyLogin(s, pid, a).login) && Progress(s.login, ApplyLogin(s, pid, a).login)
  {
    var m := ApplyLogin(s, pid, a).login;
    if m != s.login {
      RowMoves(s.login, s.procs[pid].key, m.attempts[s.procs[pid].key]);
    }
  }

  lemma TouchKeeps(l: Logins, now: nat, hash: string)
    requires LoginInv(l)
    ensures LoginInv(Touched(l, now, hash)) && Progress(l, Touched(l, now, hash))
  {
    MovesKeep(l, Touched(l, now, hash));
  }

  lemma LoginStepKeeps(s: State, pid: Pid, a: LoginAction)
    requires LoginInv(s.login)
    ensures LoginInv(ApplyLogin(s, pid, a).login) && Progress(s.login, ApplyLogin(s, pid, a).login)
  {
    match a {
      case DoStartCommit(lost) => StartKeeps(s, pid, lost);
      case DoConfirmCommit(grant, disabled, lost) => ConfirmKeeps(s, pid, grant, disabled, lost);
      case DoLogout(hash) => LogoutKeeps(s.login, hash);
      case DoTouch(hash) => TouchKeeps(s.login, s.now, hash);
      case DoCallbackBegin(key, code) => CallbackKeeps(s, pid, key, code);
      case DoMarkUnknown => UpdateKeeps(s, pid, a);
      case DoStoreToken(lost) => UpdateKeeps(s, pid, a);
      case DoRejectAttempt => UpdateKeeps(s, pid, a);
      case _ => assert ApplyLogin(s, pid, a).login == s.login;
    }
  }

  lemma SweepStepKeeps(s: State, pid: Pid, a: SweepAction)
    requires LoginInv(s.login)
    ensures LoginInv(ApplySweep(s, pid, a).login) && Progress(s.login, ApplySweep(s, pid, a).login)
  {
    var m := ApplySweep(s, pid, a).login;
    match a {
      case DoExpire => MovesKeep(s.login, m);
      case DoSweepStep =>
        if m != s.login {
          var op := s.procs[pid].ops[0];
          RowMoves(s.login, op.key, m.attempts[op.key]);
        }
      case _ =>
    }
  }

  lemma OthersLeaveLogin(up: Upstream, s: State, a: Action)
    requires !a.LoginStep? && !a.SweepStepOf?
    ensures Apply(up, s, a).login == s.login
  {
  }

  lemma StepKeepsInv(up: Upstream, s: State, a: Action)
    requires LoginInv(s.login)
    ensures LoginInv(Apply(up, s, a).login) && Progress(s.login, Apply(up, s, a).login)
  {
    match a {
      case LoginStep(pid, login) => LoginStepKeeps(s, pid, login);
      case SweepStepOf(pid, sweep) => SweepStepKeeps(s, pid, sweep);
      case _ => OthersLeaveLogin(up, s, a);
    }
  }

  // ---- every run ----

  lemma ProgressTransitive(l: Logins, m: Logins, n: Logins)
    requires Progress(l, m) && Progress(m, n)
    ensures Progress(l, n)
  {
    forall k | k in l.attempts
      ensures k in n.attempts && n.attempts[k].purpose == l.attempts[k].purpose
      ensures n.attempts[k].identity == l.attempts[k].identity && n.attempts[k].attempt == l.attempts[k].attempt
      ensures !Live(l.attempts[k].state) ==> n.attempts[k].state == l.attempts[k].state
    {
      assert k in m.attempts;
    }
  }

  lemma {:induction false} RunKeeps(up: Upstream, s: State, actions: seq<Action>)
    requires LoginInv(s.login)
    ensures LoginInv(Run(up, s, actions).login) && Progress(s.login, Run(up, s, actions).login)
    decreases |actions|
  {
    if actions != [] {
      var t := Apply(up, s, actions[0]);
      StepKeepsInv(up, s, actions[0]);
      RunKeeps(up, t, actions[1..]);
      ProgressTransitive(s.login, t.login, Run(up, t, actions[1..]).login);
    }
  }

  /** In every reachable state a binding has at most one attempt in {pending, exchanging,
      identity_pending, unknown}, and such an attempt carries the binding's current generations. */
  lemma {:induction false} OneLiveAttempt(up: Upstream, actions: seq<Action>, k1: AttemptKey, k2: AttemptKey)
    requires var l := Run(up, Init, actions).login;
      && k1 in l.attempts && Live(l.attempts[k1].state)
      && k2 in l.attempts && Live(l.attempts[k2].state) && k1.binding == k2.binding
    ensures k1 == k2 && GenerationsMatch(Run(up, Init, actions).login, k1)
  {
    RunKeeps(up, Init, actions);
    var l := Run(up, Init, actions).login;
    OthersDead(l, k1);
    assert AttemptOk(l.bindings, k1, l.attempts[k1]);
  }

  /** In every reachable state an attempt has minted at most one session, only a confirmed attempt
      has minted one, and a binding has at most one session that is not revoked. */
  lemma {:induction false} OneSession(up: Upstream, actions: seq<Action>, h1: string, h2: string)
    requires var l := Run(up, Init, actions).login; h1 in l.sessions && h2 in l.sessions
    ensures var l := Run(up, Init, actions).login;
      && InState(l, l.sessions[h1].mintedBy, Confirmed)
      && (l.sessions[h1].mintedBy == l.sessions[h2].mintedBy ==> h1 == h2)
      && (l.sessions[h1].binding == l.sessions[h2].binding && !l.sessions[h1].revoked && !l.sessions[h2].revoked
          ==> h1 == h2)
  {
    RunKeeps(up, Init, actions);
    var l := Run(up, Init, actions).login;
    assert SessionOk(l.bindings, l.attempts, l.sessions[h1]) && !Rivals(l.sessions, h1, h2);
  }

  ghost predicate NeverMints(l: Logins, key: AttemptKey) {
    forall h | h in l.sessions :: l.sessions[h].mintedBy != key
  }

  /** An attempt that ended in any state but `confirmed` never mints a session afterwards. */
  lemma {:induction false} EndedNeverMints(up: Upstream, s: State, key: AttemptKey, later: seq<Action>)
    requires LoginInv(s.login) && key in s.login.attempts
    requires !Live(s.login.attempts[key].state) && !s.login.attempts[key].state.Confirmed?
    ensures NeverMints(Run(up, s, later).login, key)
  {
    RunKeeps(up, s, later);
    var l := Run(up, s, later).login;
    forall h | h in l.sessions ensures l.sessions[h].mintedBy != key {
      assert SessionOk(l.bindings, l.attempts, l.sessions[h]);
    }
  }

  /** A committed Start ends every other attempt of the browser for good, however far its exchange
      got: unless it was already confirmed it never mints a session in any continuation. */
  lemma {:induction false} StartEndsOthers(up: Upstream, before: seq<Action>, pid: Pid, older: AttemptKey, newer: AttemptKey, later: seq<Action>)
    requires var s := Run(up, Init, before); var t := StartCommit(s, pid, false);
      && newer !in s.login.attempts && newer in t.login.attempts
      && older in s.login.attempts && older.binding == newer.binding && !s.login.attempts[older].state.Confirmed?
    ensures NeverMints(Run(up, StartCommit(Run(up, Init, before), pid, false), later).login, older)
  {
    var s := Run(up, Init, before);
    RunKeeps(up, Init, before);
    StartKeeps(s, pid, false);
    EndedNeverMints(up, StartCommit(s, pid, false), older, later);
  }

  /** Neither revoked nor left behind by a generation change. */
  predicate Current(l: Logins, hash: string) {
    && hash in l.sessions && !l.sessions[hash].revoked
    && l.sessions[hash].binding in l.bindings
    && l.sessions[hash].generation == l.bindings[l.sessions[hash].binding].identity
  }

  /** Logout of a current session ends it and every attempt of its browser that is not confirmed. */
  lemma {:induction false} LogoutEndsAttempts(up: Upstream, before: seq<Action>, hash: string, key: AttemptKey, later: seq<Action>)
    requires var l := Run(up, Init, before).login;
      && Current(l, hash) && key in l.attempts && key.binding == l.sessions[hash].binding
      && !l.attempts[key].state.Confirmed?
    ensures var s := Run(up, Init, before); var t := s.(login := LoggedOut(s.login, hash));
      NeverMints(Run(up, t, later).login, key) && !Current(Run(up, t, later).login, hash)
  {
    var s := Run(up, Init, before);
    var t := s.(login := LoggedOut(s.login, hash));
    RunKeeps(up, Init, before);
    assert AttemptOk(s.login.bindings, key, s.login.attempts[key]);
    LogoutKeeps(s.login, hash);
    EndedNeverMints(up, t, key, later);
    DeadSessionStaysDead(up, t, hash, later);
  }

  /** A session that was revoked, or whose binding moved to another generation, never becomes
      valid again. */
  lemma {:induction false} DeadSessionStaysDead(up: Upstream, s: State, hash: string, later: seq<Action>)
    requires LoginInv(s.login) && hash in s.login.sessions && !Current(s.login, hash)
    ensures !Current(Run(up, s, later).login, hash)
    ensures forall now :: !SessionValid(Run(up, s, later).login, now, hash)
  {
    RunKeeps(up, s, later);
    assert SessionOk(s.login.bindings, s.login.attempts, s.login.sessions[hash]);
  }

  /** The schema lists two purposes, so the account switch that Start offers never creates an attempt. */
  lemma {:induction false} SwitchNeverStarts(up: Upstream, actions: seq<Action>, key: AttemptKey)
    requires key in Run(up, Init, actions).login.attempts
    ensures !Run(up, Init, actions).login.attempts[key].purpose.Switch?
  {
    RunKeeps(up, Init, actions);
    var l := Run(up, Init, actions).login;
    assert AttemptOk(l.bindings, key, l.attempts[key]);
  }
}
