/** Whose session a login opens, when, and for how long: the answers of the login transactions in terms of the rows,
    the identity behind every session of a run, and the undisturbed login from Start to a valid session. */
module LoginIdentity {
  import opened AccessModel
  import opened Text
  import CredentialSafety
  import SecretSafety

  type Attempts = map<AttemptKey, Attempt>
  type Conns = map<Actor, Connection>
  type Procs = map<Pid, Proc>
  type Sessions = map<string, Session>

  // ---- the confirmation ----

  /** The attempt is still the browser's current one and waits for its identity. */
  predicate Awaited(l: Logins, now: nat, key: AttemptKey) {
    && key in l.attempts && key.binding in l.bindings
    && var row, b := l.attempts[key], l.bindings[key.binding];
    && row.state == IdentityPending && now < row.expiresAt && now < b.expiresAt
    && (row.identity, row.attempt) == (b.identity, b.attempt)
  }

  /** A login finds no credential newer than itself, a reconnect the credential it was started for. */
  predicate Timely(conns: Conns, actor: Actor, row: Attempt) {
    match row.purpose
    case Login => actor in conns ==> conns[actor].committedAt <= row.createdAt
    case Reconnect => row.expectedRevision == Some(if actor in conns then conns[actor].revision else "")
    case Switch => true
  }

  predicate Opens(s: State, p: Proc, disabled: bool, lost: bool)
    requires p.ConfirmSealed?
  {
    !disabled && !lost && Awaited(s.login, s.now, p.key) && Timely(s.creds.conns, p.actor, s.login.attempts[p.key])
  }

  /** Without use a session is valid for half an hour, and no longer than its browser binding. */
  ghost predicate ValidFor(l: Logins, now: nat, hash: string, until: nat) {
    forall n | now <= n :: SessionValid(l, n, hash) <==> n < now + 30 * 60 && n < until
  }

  /** A confirmation opens a session exactly under these guards. It is valid at once, of the identity the operation
      sealed for and on the attempt's browser. */
  lemma ConfirmOpensSession(s: State, pid: Pid, grant: Grant, disabled: bool, lost: bool)
    requires pid in s.procs && s.procs[pid].ConfirmSealed? && grant.hash !in s.login.sessions
    ensures var t, p := ConfirmCommit(s, pid, grant, disabled, lost), s.procs[pid];
      && (grant.hash in t.login.sessions <==> Opens(s, p, disabled, lost))
      && (Opens(s, p, disabled, lost) ==>
            && SessionValid(t.login, s.now, grant.hash)
            && ValidFor(t.login, s.now, grant.hash, s.login.bindings[p.key.binding].expiresAt)
            && var row := t.login.sessions[grant.hash];
               row.actor == p.actor && row.binding == p.key.binding && row.mintedBy == p.key
               && row.expiresAt == s.now + 12 * 60 * 60
               && t.login.attempts[p.key].state == Confirmed && t.login.attempts[p.key].actor == Some(p.actor))
  {
    hide SupersedeLive, Seal;
  }

  predicate Installed(c: Connection, access: Ref, refresh: Ref, grant: Grant, now: nat) {
    && c.status == Connected && c.refreshState == Idle && c.access == access && c.refresh == refresh
    && c.revision == grant.revision && c.accessExpires == grant.accessExpires && c.refreshExpires == grant.refreshExpires
    && c.committedAt == now
  }

  /** It leaves the account's connection with the two sealed references, and those of other accounts alone. */
  lemma ConfirmInstalls(s: State, pid: Pid, grant: Grant, disabled: bool, lost: bool)
    requires pid in s.procs && s.procs[pid].ConfirmSealed? && grant.hash !in s.login.sessions
    ensures var t, p := ConfirmCommit(s, pid, grant, disabled, lost), s.procs[pid];
      if Opens(s, p, disabled, lost) then
        && p.actor in t.creds.conns && Installed(t.creds.conns[p.actor], p.access, p.refresh, grant, s.now)
        && (p.actor in s.creds.conns ==> t.creds.conns[p.actor].epoch > s.creds.conns[p.actor].epoch)
        && t.creds.conns == s.creds.conns[p.actor := t.creds.conns[p.actor]]
      else t.creds.conns == s.creds.conns
  {
  }

  /** The other sessions of the browser end with it, and nobody else's; a refused confirmation ends none. */
  lemma ConfirmEndsOthers(s: State, pid: Pid, grant: Grant, disabled: bool, lost: bool, h: string)
    requires pid in s.procs && s.procs[pid].ConfirmSealed? && grant.hash !in s.login.sessions && h in s.login.sessions
    ensures var t, p := ConfirmCommit(s, pid, grant, disabled, lost), s.procs[pid];
      h in t.login.sessions
      && if Opens(s, p, disabled, lost) && s.login.sessions[h].binding == p.key.binding
         then t.login.sessions[h].revoked && forall n :: !SessionValid(t.login, n, h)
         else t.login.sessions[h] == s.login.sessions[h]
  {
  }

  /** A refused confirmation discards both seals; an untimely one also ends its attempt; a lost one keeps the seals. */
  lemma ConfirmRefused(s: State, pid: Pid, grant: Grant, disabled: bool, lost: bool)
    requires pid in s.procs && s.procs[pid].ConfirmSealed? && grant.hash !in s.login.sessions
    requires !Opens(s, s.procs[pid], disabled, lost)
    ensures var t, p := ConfirmCommit(s, pid, grant, disabled, lost), s.procs[pid];
      var refused := disabled || !Awaited(s.login, s.now, p.key) || !Timely(s.creds.conns, p.actor, s.login.attempts[p.key]);
      && (refused <==> pid in t.procs)
      && (refused ==>
            t.procs[pid].Sweep? && forall r | r in {p.access, p.refresh} && r != "" :: Destroy(r) in t.procs[pid].ops)
      && (t.login != s.login <==>
            !disabled && !lost && Awaited(s.login, s.now, p.key) && !Timely(s.creds.conns, p.actor, s.login.attempts[p.key]))
      && (t.login != s.login ==>
            t.login == s.login.(attempts := s.login.attempts[p.key := s.login.attempts[p.key].(state := Superseded)]))
  {
    var p := s.procs[pid];
    DiscardsBoth(p.access, p.refresh);
    if p.key in s.login.attempts {
      assert s.login.attempts[p.key].state.IdentityPending? ==>
        s.login.attempts[p.key := s.login.attempts[p.key].(state := Superseded)][p.key] != s.login.attempts[p.key];
    }
  }

  lemma {:induction false} DiscardsBoth(a: Ref, b: Ref)
    ensures forall r | r in {a, b} && r != "" :: Destroy(r) in Discards([a, b])
  {
    assert [a, b][1..] == [b];
    DiscardsOne(b);
    assert Discards([a, b]) == (if a == "" then [] else [Destroy(a)]) + Discards([b]);
  }

  lemma {:induction false} DiscardsOne(b: Ref)
    ensures Discards([b]) == if b == "" then [] else [Destroy(b)]
  {
    assert [b][1..] == [];
  }

  // ---- who is behind a session ----

  /** The provider answers an operation of this attempt with this account. */
  predicate Answers(s: State, a: Action, key: AttemptKey, actor: Actor) {
    && a.LoginStep? && a.login.DoConfirmLookup? && a.login.identity == Some(actor)
    && a.pid in s.procs && s.procs[a.pid].Identify? && s.procs[a.pid].key == key
  }

  /** At some moment of the run it did. */
  ghost predicate Identified(up: Upstream, s: State, actions: seq<Action>, key: AttemptKey, actor: Actor)
    decreases |actions|
  {
    actions != []
    && (Answers(s, actions[0], key, actor) || Identified(up, Apply(up, s, actions[0]), actions[1..], key, actor))
  }

  /** A pair of an attempt and an account that fits the attempt: any account for a login, the expected one for a
      reconnect. */
  predicate Fits(a: Attempts, key: AttemptKey, actor: Actor) {
    key in a && (a[key].purpose.Reconnect? ==> a[key].expected == Some(actor))
  }

  type Pairs = iset<(AttemptKey, Actor)>

  ghost predicate ProcNamed(a: Attempts, p: Proc, seen: Pairs) {
    p.ConfirmSealed? ==> Fits(a, p.key, p.actor) && (p.key, p.actor) in seen
  }

  ghost predicate SessionNamed(a: Attempts, row: Session, seen: Pairs) {
    && Fits(a, row.mintedBy, row.actor) && (row.mintedBy, row.actor) in seen
    && a[row.mintedBy].state.Confirmed? && a[row.mintedBy].actor == Some(row.actor)
  }

  ghost predicate ProcsNamed(a: Attempts, procs: Procs, seen: Pairs) {
    forall q {:trigger ProcNamed(a, procs[q], seen)} | q in procs :: ProcNamed(a, procs[q], seen)
  }

  ghost predicate SessionsNamed(a: Attempts, ss: Sessions, seen: Pairs) {
    forall h {:trigger SessionNamed(a, ss[h], seen)} | h in ss :: SessionNamed(a, ss[h], seen)
  }

  ghost predicate Named(s: State, seen: Pairs) {
    ProcsNamed(s.login.attempts, s.procs, seen) && SessionsNamed(s.login.attempts, s.login.sessions, seen)
  }

  /** Attempts keep what they were started for, and a confirmed one its account. */
  ghost predicate AttemptsHold(a: Attempts, a': Attempts) {
    forall k | k in a ::
      && k in a' && a'[k].purpose == a[k].purpose && a'[k].expected == a[k].expected
      && (a[k].state.Confirmed? ==> a'[k].state.Confirmed? && a'[k].actor == a[k].actor)
  }

  /** No new session, and none under another name. */
  ghost predicate SessionsHold(ss: Sessions, ss': Sessions) {
    forall h | h in ss' :: h in ss && ss'[h].actor == ss[h].actor && ss'[h].mintedBy == ss[h].mintedBy
  }

  ghost predicate ProcsHold(procs: Procs, procs': Procs) {
    forall q | q in procs' && procs'[q].ConfirmSealed? :: q in procs && procs[q] == procs'[q]
  }

  ghost predicate Holds(s: State, t: State) {
    && AttemptsHold(s.login.attempts, t.login.attempts)
    && SessionsHold(s.login.sessions, t.login.sessions)
    && ProcsHold(s.procs, t.procs)
  }

  lemma NamedStays(s: State, t: State, seen: Pairs)
    requires Named(s, seen) && Holds(s, t)
    ensures Named(t, seen)
  {
    forall q | q in t.procs
      ensures ProcNamed(t.login.attempts, t.procs[q], seen)
    {
      assert q in s.procs ==> ProcNamed(s.login.attempts, s.procs[q], seen);
    }
    forall h | h in t.login.sessions
      ensures SessionNamed(t.login.attempts, t.login.sessions[h], seen)
    {
      assert SessionNamed(s.login.attempts, s.login.sessions[h], seen);
    }
  }

  lemma StartHolds(s: State, pid: Pid, lost: bool)
    ensures Holds(s, StartCommit(s, pid, lost))
  {
    hide BrowserCount, AccountCount, ReconnectAllowed, Discards;
  }

  lemma SealHolds(s: State, pid: Pid, key: AttemptKey, purpose: Purpose, session: Option<string>, ref: Ref)
    ensures Holds(s, StartSeal(s, pid, key, purpose, session, ref))
  {
  }

  lemma CallbackHolds(s: State, pid: Pid, key: AttemptKey, code: CodeReply)
    ensures Holds(s, CallbackBegin(s, pid, key, code))
  {
  }

  lemma ExchangeHolds(s: State, pid: Pid, reply: ExchangeReply)
    ensures Holds(s, CallbackExchange(s, pid, reply))
  {
  }

  lemma StoreHolds(s: State, pid: Pid, lost: bool)
    ensures Holds(s, StoreToken(s, pid, lost))
  {
  }

  lemma LogoutHolds(s: State, hash: string)
    ensures Holds(s, s.(login := LoggedOut(s.login, hash)))
  {
  }

  lemma TouchHolds(s: State, hash: string)
    ensures Holds(s, s.(login := Touched(s.login, s.now, hash)))
  {
  }

  lemma RowHolds(s: State, key: AttemptKey, row: Attempt)
    requires key in s.login.attempts
    requires row.purpose == s.login.attempts[key].purpose && row.expected == s.login.attempts[key].expected
    requires s.login.attempts[key].state.Confirmed? ==> row.state.Confirmed? && row.actor == s.login.attempts[key].actor
    ensures Holds(s, SetAttempt(s, key, row))
  {
  }

  lemma EndHolds(s: State, t: State, pid: Pid)
    requires Holds(s, t)
    ensures Holds(s, End(t, pid))
  {
  }

  lemma OtherLoginHolds(s: State, pid: Pid, a: LoginAction)
    requires a.DoMarkUnknown? || a.DoRejectAttempt? || a.DoWorkerPick?
    ensures Holds(s, ApplyLogin(s, pid, a))
  {
    var t := ApplyLogin(s, pid, a);
    EndHolds(s, s, pid);
    if !a.DoWorkerPick? && t.login != s.login {
      var key := s.procs[pid].key;
      RowHolds(s, key, t.login.attempts[key]);
      EndHolds(s, SetAttempt(s, key, t.login.attempts[key]), pid);
      assert t == End(SetAttempt(s, key, t.login.attempts[key]), pid);
    } else if a.DoWorkerPick? {
      PickHolds(s, pid, a.key, a.renewable);
    }
    hide Holds;
  }

  lemma PickHolds(s: State, pid: Pid, key: AttemptKey, renewable: bool)
    ensures Holds(s, WorkerPick(s, pid, key, renewable))
  {
  }

  lemma LoginHolds(s: State, pid: Pid, a: LoginAction)
    requires !a.DoConfirmLookup? && !a.DoConfirmCommit?
    ensures Holds(s, ApplyLogin(s, pid, a))
  {
    hide Holds, StartCommit, StartSeal, CallbackBegin, CallbackExchange, StoreToken, LoggedOut, Touched;
    match a {
      case DoStartSeal(key, purpose, session, ref) => SealHolds(s, pid, key, purpose, session, ref);
      case DoStartCommit(lost) => StartHolds(s, pid, lost);
      case DoCallbackBegin(key, code) => CallbackHolds(s, pid, key, code);
      case DoCallbackExchange(exchange) => ExchangeHolds(s, pid, exchange);
      case DoStoreToken(lost) => StoreHolds(s, pid, lost);
      case DoTouch(hash) => TouchHolds(s, hash);
      case DoLogout(hash) => LogoutHolds(s, hash);
      case _ => OtherLoginHolds(s, pid, a);
    }
  }

  lemma PerformHolds(s: State, op: SweepOp)
    ensures Holds(s, Perform(s, op))
  {
    if !op.Destroy? && op.key in s.login.attempts {
      var row := s.login.attempts[op.key];
      RowHolds(s, op.key, row.(material := ""));
      RowHolds(s, op.key, row.(token := ""));
    }
    SameHolds(s, Perform(s, op));
    hide Holds;
  }

  lemma SameHolds(s: State, t: State)
    ensures t.login == s.login && t.procs == s.procs ==> Holds(s, t)
  {
  }

  lemma SweepHolds(s: State, pid: Pid, a: SweepAction)
    ensures Holds(s, ApplySweep(s, pid, a))
  {
    if a.DoSweepStep? && pid in s.procs && s.procs[pid].Sweep? && s.procs[pid].ops != [] {
      var ops := s.procs[pid].ops;
      PerformHolds(Put(s, pid, Sweep(ops[1..])), ops[0]);
    }
  }

  lemma RefreshHolds(s: State, pid: Pid, a: RefreshAction)
    ensures Holds(s, ApplyRefresh(s, pid, a))
  {
    hide SecretSafety.SameBut;
    CredentialSafety.OwnStep(s, pid, a);
    RefreshIsNoLogin(s, pid, a);
    hide ApplyRefresh;
    SameButHolds(s.procs, ApplyRefresh(s, pid, a).procs, pid);
  }

  lemma RefreshIsNoLogin(s: State, pid: Pid, a: RefreshAction)
    ensures var t := ApplyRefresh(s, pid, a);
      t.login == s.login
      && (pid in t.procs && t.procs[pid].ConfirmSealed? ==> pid in s.procs && s.procs[pid] == t.procs[pid])
  {
  }

  lemma SameButHolds(procs: Procs, procs': Procs, pid: Pid)
    requires SecretSafety.SameBut(procs, procs', pid)
    requires pid in procs' && procs'[pid].ConfirmSealed? ==> pid in procs && procs[pid] == procs'[pid]
    ensures ProcsHold(procs, procs')
  {
  }

  lemma BatchHolds(up: Upstream, s: State, pid: Pid, a: BatchAction)
    ensures Holds(s, ApplyBatch(up, s, pid, a))
  {
    SecretSafety.BatchStepIs(up, s, pid, a);
    hide ApplyBatch;
  }

  // ---- the two steps that name somebody ----

  ghost function Answered(s: State, a: Action): Pairs {
    iset key: AttemptKey, actor: Actor | Answers(s, a, key, actor) :: (key, actor)
  }

  lemma LookupNames(s: State, pid: Pid, identity: Option<Actor>, access: Ref, refresh: Ref, seen: Pairs)
    requires Named(s, seen)
    ensures var a := LoginStep(pid, DoConfirmLookup(identity, access, refresh));
      Named(ConfirmLookup(s, pid, identity, access, refresh), seen + Answered(s, a))
  {
    var t := ConfirmLookup(s, pid, identity, access, refresh);
    var more := seen + Answered(s, LoginStep(pid, DoConfirmLookup(identity, access, refresh)));
    LookupSeals(s, pid, identity, access, refresh);
    forall q | q in t.procs
      ensures ProcNamed(t.login.attempts, t.procs[q], more)
    {
      if q != pid || t.procs == s.procs {
        assert ProcNamed(s.login.attempts, s.procs[q], seen);
      }
    }
    forall h | h in t.login.sessions
      ensures SessionNamed(t.login.attempts, t.login.sessions[h], more)
    {
      assert SessionNamed(s.login.attempts, s.login.sessions[h], seen);
    }
  }

  lemma LookupSeals(s: State, pid: Pid, identity: Option<Actor>, access: Ref, refresh: Ref)
    ensures var t := ConfirmLookup(s, pid, identity, access, refresh);
      && t.login == s.login
      && (t.procs == s.procs || SecretSafety.SameBut(s.procs, t.procs, pid))
      && (t.procs != s.procs && pid in t.procs && t.procs[pid].ConfirmSealed? ==>
            var p := t.procs[pid];
            identity == Some(p.actor) && Fits(s.login.attempts, p.key, p.actor)
            && pid in s.procs && s.procs[pid].Identify? && s.procs[pid].key == p.key)
  {
  }

  lemma ConfirmNamesProcs(s: State, pid: Pid, grant: Grant, disabled: bool, lost: bool, seen: Pairs)
    requires Named(s, seen)
    ensures var t := ConfirmCommit(s, pid, grant, disabled, lost); ProcsNamed(t.login.attempts, t.procs, seen)
  {
    var t := ConfirmCommit(s, pid, grant, disabled, lost);
    hide SessionsNamed, RevokeAll, Discards;
    forall q | q in t.procs
      ensures ProcNamed(t.login.attempts, t.procs[q], seen)
    {
      assert q in s.procs ==> ProcNamed(s.login.attempts, s.procs[q], seen);
    }
  }

  lemma ConfirmNamesSessions(s: State, pid: Pid, grant: Grant, disabled: bool, lost: bool, seen: Pairs)
    requires Named(s, seen)
    ensures var t := ConfirmCommit(s, pid, grant, disabled, lost); SessionsNamed(t.login.attempts, t.login.sessions, seen)
  {
    var t := ConfirmCommit(s, pid, grant, disabled, lost);
    hide Discards, ProcsNamed;
    if pid in s.procs {
      assert ProcNamed(s.login.attempts, s.procs[pid], seen) by {
        assert ProcsNamed(s.login.attempts, s.procs, seen);
        ProcIsNamed(s, pid, seen);
      }
    }
    forall h | h in t.login.sessions
      ensures SessionNamed(t.login.attempts, t.login.sessions[h], seen)
    {
      assert h in s.login.sessions ==> SessionNamed(s.login.attempts, s.login.sessions[h], seen);
    }
  }

  lemma ProcIsNamed(s: State, pid: Pid, seen: Pairs)
    requires ProcsNamed(s.login.attempts, s.procs, seen) && pid in s.procs
    ensures ProcNamed(s.login.attempts, s.procs[pid], seen)
  {
  }

  lemma ConfirmNames(s: State, pid: Pid, grant: Grant, disabled: bool, lost: bool, seen: Pairs)
    requires Named(s, seen)
    ensures Named(ConfirmCommit(s, pid, grant, disabled, lost), seen)
  {
    ConfirmNamesProcs(s, pid, grant, disabled, lost, seen);
    ConfirmNamesSessions(s, pid, grant, disabled, lost, seen);
    hide ProcsNamed, SessionsNamed, ConfirmCommit;
  }

  lemma NamedGrows(s: State, seen: Pairs, more: Pairs)
    requires Named(s, seen)
    ensures Named(s, seen + more)
  {
    forall q | q in s.procs
      ensures ProcNamed(s.login.attempts, s.procs[q], seen + more)
    {
      assert ProcNamed(s.login.attempts, s.procs[q], seen);
    }
    forall h | h in s.login.sessions
      ensures SessionNamed(s.login.attempts, s.login.sessions[h], seen + more)
    {
      assert SessionNamed(s.login.attempts, s.login.sessions[h], seen);
    }
  }

  lemma StepNames(up: Upstream, s: State, a: Action, seen: Pairs)
    requires Named(s, seen)
    ensures Named(Apply(up, s, a), seen + Answered(s, a))
  {
    hide Named, Holds, Answered, ApplySweep, ApplyRefresh, ApplyBatch, ConfirmLookup, ConfirmCommit;
    var t := Apply(up, s, a);
    if a.LoginStep? && a.login.DoConfirmLookup? {
      LookupNames(s, a.pid, a.login.identity, a.login.access, a.login.refresh, seen);
    } else if a.LoginStep? && a.login.DoConfirmCommit? {
      ConfirmNames(s, a.pid, a.login.grant, a.login.disabled, a.login.lost, seen);
      NamedGrows(t, seen, Answered(s, a));
    } else {
      StepHolds(up, s, a);
      NamedStays(s, t, seen);
      NamedGrows(t, seen, Answered(s, a));
    }
  }

  lemma StepHolds(up: Upstream, s: State, a: Action)
    requires !a.LoginStep? || (!a.login.DoConfirmLookup? && !a.login.DoConfirmCommit?)
    ensures Holds(s, Apply(up, s, a))
  {
    hide ApplyLogin, ApplySweep, ApplyRefresh, ApplyBatch;
    match a {
      case LoginStep(pid, login) => LoginHolds(s, pid, login);
      case SweepStepOf(pid, sweep) => SweepHolds(s, pid, sweep);
      case RefreshStep(pid, refresh) => RefreshHolds(s, pid, refresh);
      case BatchStep(pid, batch) => BatchHolds(up, s, pid, batch);
      case _ =>
    }
  }

  lemma {:induction false} RunNames(up: Upstream, s: State, actions: seq<Action>, seen: Pairs) returns (more: Pairs)
    requires Named(s, seen)
    ensures Named(Run(up, s, actions), more)
    ensures forall key, actor | (key, actor) in more :: (key, actor) in seen || Identified(up, s, actions, key, actor)
    decreases |actions|
  {
    more := seen;
    if actions != [] {
      StepNames(up, s, actions[0], seen);
      more := RunNames(up, Apply(up, s, actions[0]), actions[1..], seen + Answered(s, actions[0]));
    }
  }

  /** In every reachable state the account of a session is that of the attempt it was opened for, the provider
      answered with it when it was asked for this very attempt, and for a reconnect it is the expected one. */
  lemma {:induction false} SessionNamesIdentity(up: Upstream, actions: seq<Action>, h: string)
    requires h in Run(up, Init, actions).login.sessions
    ensures var l := Run(up, Init, actions).login; var row := l.sessions[h];
      && row.mintedBy in l.attempts && l.attempts[row.mintedBy].actor == Some(row.actor)
      && Identified(up, Init, actions, row.mintedBy, row.actor)
      && (l.attempts[row.mintedBy].purpose.Reconnect? ==> l.attempts[row.mintedBy].expected == Some(row.actor))
  {
    var seen := RunNames(up, Init, actions, iset{});
    var l := Run(up, Init, actions).login;
    assert SessionNamed(l.attempts, l.sessions[h], seen);
  }

  // ---- the undisturbed login ----

  /** The attempt is the browser's current one, and it and the binding last until then. */
  predicate Current(l: Logins, key: AttemptKey, state: AttemptState, started: nat, until: nat) {
    && key in l.attempts && key.binding in l.bindings
    && var row, b := l.attempts[key], l.bindings[key.binding];
    && row.state == state && row.purpose == Login && row.createdAt == started
    && (row.identity, row.attempt) == (b.identity, b.attempt)
    && until <= row.expiresAt && until <= b.expiresAt
  }

  predicate MayStart(s: State, key: AttemptKey, until: nat) {
    && key !in s.login.attempts && BrowserCount(s.login, s.now, key.binding) < 5
    && until <= s.now + 10 * 60
    && (key.binding in s.login.bindings ==> s.now < s.login.bindings[key.binding].expiresAt && until <= s.login.bindings[key.binding].expiresAt)
  }

  // The rest of the state is the same but for what the step itself stores.
  predicate Unchanged(s: State, t: State) {
    t.now == s.now && t.creds.conns == s.creds.conns && t.login.sessions == s.login.sessions
  }

  lemma StartGoesOn(s: State, pid: Pid, key: AttemptKey, material: Ref, until: nat)
    requires pid !in s.procs && MayStart(s, key, until) && Fresh(s, material)
    ensures var t := StartCommit(StartSeal(s, pid, key, Login, None, material), pid, false);
      && Current(t.login, key, Pending, s.now, until) && t.login.attempts[key].material == material
      && Openable(t, material) && t.creds.versions.Keys == s.creds.versions.Keys + {material}
      && pid !in t.procs && Unchanged(s, t)
  {
    var t := StartSeal(s, pid, key, Login, None, material);
    assert t.login == s.login && pid in t.procs && t.procs[pid].StartSealed?;
    assert StartAllowed(t, t.procs[pid]);
  }

  lemma CallbackGoesOn(s: State, pid: Pid, key: AttemptKey, started: nat, until: nat)
    requires pid !in s.procs && Current(s.login, key, Pending, started, until) && s.now < until
    ensures var t := CallbackBegin(s, pid, key, Code);
      && Current(t.login, key, Exchanging, started, until) && Unchanged(s, t) && t.creds == s.creds
      && pid in t.procs && t.procs[pid] == Exchange(key, s.login.attempts[key].material)
  {
  }

  lemma ExchangeGoesOn(s: State, pid: Pid, key: AttemptKey, material: Ref, token: Ref)
    requires pid in s.procs && s.procs[pid] == Exchange(key, material) && Openable(s, material) && Fresh(s, token)
    ensures var t := CallbackExchange(s, pid, Tokens(token, true));
      && t.login == s.login && Unchanged(s, t) && t.creds.versions.Keys == s.creds.versions.Keys + {token}
      && pid in t.procs && t.procs[pid] == TokenSealed(key, token, true)
  {
  }

  lemma StoreGoesOn(s: State, pid: Pid, key: AttemptKey, token: Ref, started: nat, until: nat)
    requires Current(s.login, key, Exchanging, started, until) && s.now < until
    requires pid in s.procs && s.procs[pid] == TokenSealed(key, token, true)
    ensures var t := StoreToken(s, pid, false);
      && Current(t.login, key, IdentityPending, started, until) && t.login.attempts[key].token == token
      && Unchanged(s, t) && t.creds == s.creds && pid in t.procs && t.procs[pid] == Identify(key, true)
  {
  }

  lemma LookupGoesOn(s: State, pid: Pid, key: AttemptKey, actor: Actor, access: Ref, refresh: Ref, started: nat, until: nat)
    requires Current(s.login, key, IdentityPending, started, until) && s.now < until
    requires pid in s.procs && s.procs[pid] == Identify(key, true)
    requires Fresh(s, access) && Fresh(s, refresh) && access != refresh
    ensures var t := ConfirmLookup(s, pid, Some(actor), access, refresh);
      && t.login == s.login && Unchanged(s, t) && pid in t.procs && t.procs[pid] == ConfirmSealed(key, actor, access, refresh)
  {
  }

  function Later(s: State, seconds: nat): State {
    s.(now := s.now + seconds)
  }

  lemma ConfirmGoesOn(s: State, pid: Pid, key: AttemptKey, actor: Actor, access: Ref, refresh: Ref, grant: Grant, started: nat, until: nat)
    requires Current(s.login, key, IdentityPending, started, until) && s.now < until
    requires pid in s.procs && s.procs[pid] == ConfirmSealed(key, actor, access, refresh)
    requires grant.hash !in s.login.sessions && (actor in s.creds.conns ==> s.creds.conns[actor].committedAt <= started)
    ensures var t := ConfirmCommit(s, pid, grant, false, false);
      && SessionValid(t.login, t.now, grant.hash) && t.login.sessions[grant.hash].actor == actor
      && t.login.sessions[grant.hash].mintedBy == key
      && actor in t.creds.conns && Installed(t.creds.conns[actor], access, refresh, grant, t.now)
  {
    assert Opens(s, s.procs[pid], false, false);
    ConfirmOpensSession(s, pid, grant, false, false);
    ConfirmInstalls(s, pid, grant, false, false);
    assert ConfirmCommit(s, pid, grant, false, false).now == s.now;
  }

  /** From the stored attempt to the sealed identity; the whole second half of a login. */
  lemma CallbackSucceeds(s: State, pid: Pid, key: AttemptKey, actor: Actor, material: Ref, refs: seq<Ref>, grant: Grant,
                         waits: seq<nat>, until: nat)
    requires |refs| == 3 && |waits| == 5 && s.now + waits[0] + waits[1] + waits[2] + waits[3] + waits[4] < until
    requires pid !in s.procs && Current(s.login, key, Pending, s.now, until)
    requires s.login.attempts[key].material == material && Openable(s, material) && grant.hash !in s.login.sessions
    requires forall i :: 0 <= i < 3 ==> Fresh(s, refs[i]) && forall j :: 0 <= j < i ==> refs[j] != refs[i]
    requires actor in s.creds.conns ==> s.creds.conns[actor].committedAt <= s.now
    ensures var t := AfterCallback(s, pid, key, actor, refs, grant, waits);
      && SessionValid(t.login, t.now, grant.hash) && t.login.sessions[grant.hash].actor == actor
      && t.login.sessions[grant.hash].mintedBy == key
      && actor in t.creds.conns && Installed(t.creds.conns[actor], refs[1], refs[2], grant, t.now)
  {
    hide CallbackBegin, CallbackExchange, StoreToken, ConfirmLookup, ConfirmCommit, Current, SessionValid, Installed;
    var s1 := Later(s, waits[0]);
    CallbackGoesOn(s1, pid, key, s.now, until);
    var s2 := Later(CallbackBegin(s1, pid, key, Code), waits[1]);
    ExchangeGoesOn(s2, pid, key, material, refs[0]);
    var s3 := Later(CallbackExchange(s2, pid, Tokens(refs[0], true)), waits[2]);
    StoreGoesOn(s3, pid, key, refs[0], s.now, until);
    var s4 := Later(StoreToken(s3, pid, false), waits[3]);
    LookupGoesOn(s4, pid, key, actor, refs[1], refs[2], s.now, until);
    var s5 := Later(ConfirmLookup(s4, pid, Some(actor), refs[1], refs[2]), waits[4]);
    ConfirmGoesOn(s5, pid, key, actor, refs[1], refs[2], grant, s.now, until);
  }

  function AfterCallback(s: State, pid: Pid, key: AttemptKey, actor: Actor, refs: seq<Ref>, grant: Grant, waits: seq<nat>): State
    requires |refs| == 3 && |waits| == 5
  {
    var s2 := Later(CallbackBegin(Later(s, waits[0]), pid, key, Code), waits[1]);
    var s3 := Later(CallbackExchange(s2, pid, Tokens(refs[0], true)), waits[2]);
    var s5 := Later(ConfirmLookup(Later(StoreToken(s3, pid, false), waits[3]), pid, Some(actor), refs[1], refs[2]), waits[4]);
    ConfirmCommit(s5, pid, grant, false, false)
  }

  /** Nothing else happening, a login that Start accepts ends in a session of the account the provider names, as long
      as it takes less than ten minutes and the binding lasts; the account's connection then serves its tokens. */
  lemma {:induction false} LoginSucceeds(up: Upstream, s: State, pid: Pid, key: AttemptKey, actor: Actor, material: Ref,
                                         refs: seq<Ref>, grant: Grant, waits: seq<nat>, until: nat)
    requires |refs| == 3 && |waits| == 5 && s.now + waits[0] + waits[1] + waits[2] + waits[3] + waits[4] < until
    requires MayStart(s, key, until) && pid !in s.procs && grant.hash !in s.login.sessions && Fresh(s, material)
    requires forall i :: 0 <= i < 3 ==> Fresh(s, refs[i]) && refs[i] != material && forall j :: 0 <= j < i ==> refs[j] != refs[i]
    requires actor in s.creds.conns ==> s.creds.conns[actor].committedAt <= s.now
    ensures var t := Run(up, s, LoginOf(pid, key, actor, material, refs, grant, waits));
      && SessionValid(t.login, t.now, grant.hash) && t.login.sessions[grant.hash].actor == actor
      && t.login.sessions[grant.hash].mintedBy == key
      && actor in t.creds.conns && Installed(t.creds.conns[actor], refs[1], refs[2], grant, t.now)
  {
    var t := StartCommit(StartSeal(s, pid, key, Login, None, material), pid, false);
    StartGoesOn(s, pid, key, material, until);
    hide StartSeal, StartCommit, Current, SessionValid, Installed, AfterCallback, LoginOf, Run;
    CallbackSucceeds(t, pid, key, actor, material, refs, grant, waits, until);
    LoginRuns(up, s, pid, key, actor, material, refs, grant, waits);
  }

  function LoginOf(pid: Pid, key: AttemptKey, actor: Actor, material: Ref, refs: seq<Ref>, grant: Grant, waits: seq<nat>): seq<Action>
    requires |refs| == 3 && |waits| == 5
  {
    Both(LoginStep(pid, DoStartSeal(key, Login, None, material)), LoginStep(pid, DoStartCommit(false)),
    Both(Tick(waits[0]), LoginStep(pid, DoCallbackBegin(key, Code)),
    Both(Tick(waits[1]), LoginStep(pid, DoCallbackExchange(Tokens(refs[0], true))),
    Both(Tick(waits[2]), LoginStep(pid, DoStoreToken(false)),
    Both(Tick(waits[3]), LoginStep(pid, DoConfirmLookup(Some(actor), refs[1], refs[2])),
    Both(Tick(waits[4]), LoginStep(pid, DoConfirmCommit(grant, false, false)), []))))))
  }

  function Both(a: Action, b: Action, rest: seq<Action>): seq<Action> {
    [a, b] + rest
  }

  lemma {:induction false} RunBoth(up: Upstream, s: State, a: Action, b: Action, rest: seq<Action>)
    ensures Run(up, s, Both(a, b, rest)) == Run(up, Apply(up, Apply(up, s, a), b), rest)
  {
    hide Apply;
    var actions := Both(a, b, rest);
    SecretSafety.RunFrom(up, s, actions, 0);
    SecretSafety.RunFrom(up, Apply(up, s, a), actions, 1);
    assert actions[0..] == actions && actions[2..] == rest;
  }

  lemma {:induction false} RunNone(up: Upstream, s: State)
    ensures Run(up, s, []) == s
  {
  }

  lemma {:induction false} LoginRuns(up: Upstream, s: State, pid: Pid, key: AttemptKey, actor: Actor, material: Ref,
                                     refs: seq<Ref>, grant: Grant, waits: seq<nat>)
    requires |refs| == 3 && |waits| == 5
    ensures var t := StartCommit(StartSeal(s, pid, key, Login, None, material), pid, false);
      Run(up, s, LoginOf(pid, key, actor, material, refs, grant, waits)) == AfterCallback(t, pid, key, actor, refs, grant, waits)
  {
    hide StartSeal, StartCommit, CallbackBegin, CallbackExchange, StoreToken, ConfirmLookup, ConfirmCommit, Run, Both;
    var end := Both(Tick(waits[4]), LoginStep(pid, DoConfirmCommit(grant, false, false)), []);
    var d := Both(Tick(waits[3]), LoginStep(pid, DoConfirmLookup(Some(actor), refs[1], refs[2])), end);
    var c := Both(Tick(waits[2]), LoginStep(pid, DoStoreToken(false)), d);
    var b := Both(Tick(waits[1]), LoginStep(pid, DoCallbackExchange(Tokens(refs[0], true))), c);
    var a := Both(Tick(waits[0]), LoginStep(pid, DoCallbackBegin(key, Code)), b);
    var t := StartCommit(StartSeal(s, pid, key, Login, None, material), pid, false);
    var s2 := CallbackBegin(Later(t, waits[0]), pid, key, Code);
    var s3 := CallbackExchange(Later(s2, waits[1]), pid, Tokens(refs[0], true));
    var s4 := StoreToken(Later(s3, waits[2]), pid, false);
    var s5 := ConfirmLookup(Later(s4, waits[3]), pid, Some(actor), refs[1], refs[2]);
    RunBoth(up, s, LoginStep(pid, DoStartSeal(key, Login, None, material)), LoginStep(pid, DoStartCommit(false)), a);
    RunBoth(up, t, Tick(waits[0]), LoginStep(pid, DoCallbackBegin(key, Code)), b);
    RunBoth(up, s2, Tick(waits[1]), LoginStep(pid, DoCallbackExchange(Tokens(refs[0], true))), c);
    RunBoth(up, s3, Tick(waits[2]), LoginStep(pid, DoStoreToken(false)), d);
    RunBoth(up, s4, Tick(waits[3]), LoginStep(pid, DoConfirmLookup(Some(actor), refs[1], refs[2])), end);
    RunBoth(up, s5, Tick(waits[4]), LoginStep(pid, DoConfirmCommit(grant, false, false)), []);
    RunNone(up, ConfirmCommit(Later(s5, waits[4]), pid, grant, false, false));
  }
}
