/** The login, session and credential protocol of internal/access as a state machine.

    One SQL transaction is one step. A network call, a seal in the secret store or any other
    gap between two transactions of one operation is a point where every other step may run;
    what the operation holds in memory across the gap is its entry in `procs`. A step whose
    guard is false leaves the state unchanged, so a run is any finite sequence of actions.
    Random identifiers, provider replies and database failures are parameters of the actions. */
module AccessModel {
  import opened Text

  type Ref = string    // id of a sealed secret version; "" is the source's empty column
  type Pid = nat       // an operation in flight
  type Actor = int     // an account, named by its unique GitHub id

  const BINDING_LIFE: nat := 604800
  const ATTEMPT_LIFE: nat := 600
  const SESSION_LIFE: nat := 43200
  const IDLE_LIMIT: nat := 1800
  const ORPHAN_AGE: nat := 900
  const REFRESH_MARGIN: nat := 30
  const BATCH_LIFE: nat := 600
  const LEASE: nat := 15

  datatype Purpose = Login | Reconnect | Switch

  datatype AttemptState =
    | Pending | Exchanging | IdentityPending | Unknown
    | Confirmed | Cancelled | Rejected | Expired | Superseded

  predicate Live(state: AttemptState) {
    state.Pending? || state.Exchanging? || state.IdentityPending? || state.Unknown?
  }

  datatype AttemptKey = AttemptKey(binding: string, id: string)

  datatype Binding = Binding(identity: nat, attempt: nat, expiresAt: nat)

  datatype Attempt = Attempt(
    purpose: Purpose, actor: Option<Actor>, expected: Option<Actor>, expectedRevision: Option<string>,
    identity: nat, attempt: nat, state: AttemptState, material: Ref, token: Ref,
    createdAt: nat, expiresAt: nat)

  // `mintedBy` is a history variable: the attempt whose confirmation inserted the row.
  datatype Session = Session(
    actor: Actor, binding: string, generation: nat, expiresAt: nat, lastActive: nat, revoked: bool,
    mintedBy: AttemptKey)

  datatype Status = Connected | Missing | StatusUnknown
  datatype RefreshState = Idle | Claimed | RefreshUnknown

  datatype Connection = Connection(
    revision: string, epoch: nat, access: Ref, refresh: Ref,
    accessExpires: Option<nat>, refreshExpires: Option<nat>,
    status: Status, refreshState: RefreshState, committedAt: nat)

  /** The only connections `credential` accepts. */
  predicate Serving(c: Connection) {
    c.status.Connected? && c.refreshState.Idle?
  }

  // Owner and purpose of a sealed version, as Seal receives them.
  datatype Owner =
    | AttemptMaterial(key: AttemptKey)
    | AttemptToken(key: AttemptKey)
    | UserToken(actor: Actor)
    | RefreshToken(actor: Actor)

  // `sealer` is a history variable: the operation that sealed the version.
  datatype Version = Version(createdAt: nat, destroyed: bool, owner: Owner, sealer: Pid)

  datatype Repo = Repo(id: int, fullName: string)
  datatype Page = Page(items: seq<Repo>, next: nat)

  /** The provider's repository listing: what a token sees on a page, 0 meaning no next page. */
  type Upstream = (Ref, nat) -> Page

  // `token` is a history variable: the access reference that (revision, epoch) named at creation.
  datatype Batch = Batch(
    actor: Actor, revision: string, epoch: nat, cursor: nat, complete: bool, hadSuccess: bool,
    claim: nat, lease: Option<nat>, nextRun: nat, expiresAt: nat,
    repos: map<int, Repo>, token: Ref)

  datatype SweepOp =
    | Destroy(ref: Ref)
    | ClearMaterial(key: AttemptKey, ref: Ref)
    | ClearToken(key: AttemptKey, ref: Ref)

  datatype Proc =
    | StartSealed(key: AttemptKey, purpose: Purpose, session: Option<string>, material: Ref, newBinding: bool)
    | Exchange(key: AttemptKey, material: Ref)
    | ExchangeFailed(key: AttemptKey)
    | TokenSealed(key: AttemptKey, token: Ref, renewable: bool)
    | Identify(key: AttemptKey, renewable: bool)
    | Mismatch(key: AttemptKey)
    | ConfirmSealed(key: AttemptKey, actor: Actor, access: Ref, refresh: Ref)
    | RefreshReady(actor: Actor, revision: string, epoch: nat, refresh: Ref)
    | RefreshClaimed(actor: Actor, revision: string, epoch: nat, refresh: Ref)
    | RefreshSent(actor: Actor, revision: string, epoch: nat)
    | RefreshSealed(actor: Actor, revision: string, epoch: nat, access: Ref, refresh: Ref)
    | RefreshFailed(actor: Actor, revision: string, epoch: nat, leftovers: seq<Ref>)
    | Sweep(ops: seq<SweepOp>)
    | BatchClaimed(id: string, claim: nat)
    | BatchRead(id: string, batch: Batch)
    | Fetching(id: string, batch: Batch, credEpoch: nat, access: Ref, found: seq<Repo>, next: nat, pages: nat)
    | Deferring(id: string, claim: nat)

  datatype Logins = Logins(
    bindings: map<string, Binding>,
    attempts: map<AttemptKey, Attempt>,
    sessions: map<string, Session>)

  // `claimed` and `presented` are history variables: the refresh references ever claimed, and
  // those presented to the provider, in order.
  datatype Credentials = Credentials(
    versions: map<Ref, Version>,
    conns: map<Actor, Connection>,
    claimed: set<Ref>,
    presented: seq<Ref>)

  /** Every table the protocol touches and the operations in flight. */
  datatype State = State(
    now: nat, login: Logins, creds: Credentials, batches: map<string, Batch>, procs: map<Pid, Proc>)

  const Init := State(0, Logins(map[], map[], map[]), Credentials(map[], map[], {}, []), map[], map[])

  function Put(s: State, pid: Pid, p: Proc): State {
    s.(procs := s.procs[pid := p])
  }

  function End(s: State, pid: Pid): State {
    s.(procs := s.procs - {pid})
  }

  function SetAttempt(s: State, key: AttemptKey, row: Attempt): State {
    s.(login := s.login.(attempts := s.login.attempts[key := row]))
  }

  function SetConnection(s: State, actor: Actor, c: Connection): State {
    s.(creds := s.creds.(conns := s.creds.conns[actor := c]))
  }

  function SetVersion(s: State, ref: Ref, v: Version): State {
    s.(creds := s.creds.(versions := s.creds.versions[ref := v]))
  }

  function SetBatch(s: State, id: string, b: Batch): State {
    s.(batches := s.batches[id := b])
  }

  predicate Fresh(s: State, ref: Ref) {
    ref != "" && ref !in s.creds.versions
  }

  function Seal(s: State, ref: Ref, owner: Owner, pid: Pid): State {
    SetVersion(s, ref, Version(s.now, false, owner, pid))
  }

  predicate Openable(s: State, ref: Ref) {
    ref in s.creds.versions && !s.creds.versions[ref].destroyed
  }

  /** The reference was sealed at most 15 minutes ago. Nothing in the protocol checks this. */
  predicate InTime(s: State, ref: Ref) {
    ref != "" ==> ref in s.creds.versions && s.now <= s.creds.versions[ref].createdAt + ORPHAN_AGE
  }

  function Discards(refs: seq<Ref>): seq<SweepOp> {
    if refs == [] then []
    else (if refs[0] == "" then [] else [Destroy(refs[0])]) + Discards(refs[1..])
  }

  function Discard(s: State, pid: Pid, refs: seq<Ref>): State {
    Put(s, pid, Sweep(Discards(refs)))
  }

  predicate SessionValid(l: Logins, now: nat, hash: string) {
    && hash in l.sessions
    && var row := l.sessions[hash];
    && row.binding in l.bindings
    && !row.revoked
    && row.expiresAt > now
    && row.lastActive + IDLE_LIMIT > now
    && l.bindings[row.binding].expiresAt > now
    && row.generation == l.bindings[row.binding].identity
  }

  // ---- Start ----

  /** Start up to its transaction: session checks, replay check, seal of the material. */
  function StartSeal(s: State, pid: Pid, key: AttemptKey, purpose: Purpose, session: Option<string>, ref: Ref): State {
    var l := s.login;
    var signedIn := session.Some? && SessionValid(l, s.now, session.value);
    var known := key.binding in l.bindings;
    if pid in s.procs || !Fresh(s, ref) then s
    else if purpose.Login? && signedIn then s
    else if !purpose.Login? && (!signedIn || l.sessions[session.value].binding != key.binding) then s
    else if known && (l.bindings[key.binding].expiresAt <= s.now || key in l.attempts) then s
    else Put(Seal(s, ref, AttemptMaterial(key), pid), pid, StartSealed(key, purpose, session, ref, !known))
  }

  function BrowserCount(l: Logins, now: nat, binding: string): nat {
    |set k | k in l.attempts && k.binding == binding && l.attempts[k].createdAt + 60 > now|
  }

  function AccountCount(l: Logins, now: nat, actor: Actor): nat {
    |set k | k in l.attempts && l.attempts[k].actor == Some(actor) && l.attempts[k].createdAt + 60 > now|
  }

  /** UPDATE attempts SET state='superseded' for the live rows of a binding, of one identity
      generation if one is given. */
  function SupersedeLive(attempts: map<AttemptKey, Attempt>, binding: string, generation: Option<nat>)
    : map<AttemptKey, Attempt>
  {
    map k | k in attempts ::
      if k.binding == binding && Live(attempts[k].state) && (generation.None? || generation.value == attempts[k].identity)
      then attempts[k].(state := Superseded)
      else attempts[k]
  }

  /** The row a reconnect must still find inside the transaction. */
  predicate ReconnectAllowed(s: State, session: Option<string>, identity: nat) {
    && session.Some?
    && session.value in s.login.sessions
    && var row := s.login.sessions[session.value];
    && !row.revoked
    && row.expiresAt > s.now
    && row.lastActive + IDLE_LIMIT > s.now
    && row.generation == identity
    && row.actor in s.creds.conns
  }

  /** The binding row inside Start's transaction: just inserted, or found unexpired. */
  function StartBinding(s: State, p: Proc): Option<Binding>
    requires p.StartSealed?
  {
    if p.newBinding then
      (if p.key.binding in s.login.bindings then None else Some(Binding(0, 0, s.now + BINDING_LIFE)))
    else if p.key.binding in s.login.bindings && s.login.bindings[p.key.binding].expiresAt > s.now then
      Some(s.login.bindings[p.key.binding])
    else None
  }

  /** The guards of Start's transaction, in the order the source checks them. The last one is the
      CHECK constraint on attempts.purpose, which lists only 'login' and 'reconnect'. */
  predicate StartAllowed(s: State, p: Proc)
    requires p.StartSealed?
  {
    && StartBinding(s, p).Some?
    && p.key !in s.login.attempts
    && (p.purpose.Reconnect? ==> ReconnectAllowed(s, p.session, StartBinding(s, p).value.identity))
    && BrowserCount(s.login, s.now, p.key.binding) < 5
    && (p.purpose.Reconnect? ==> AccountCount(s.login, s.now, s.login.sessions[p.session.value].actor) < 10)
    && !p.purpose.Switch?
  }

  function StartRow(s: State, p: Proc, b: Binding): Attempt
    requires p.StartSealed? && StartAllowed(s, p)
  {
    var actor := if p.purpose.Reconnect? then Some(s.login.sessions[p.session.value].actor) else None;
    var revision := if p.purpose.Reconnect? then Some(s.creds.conns[actor.value].revision) else None;
    Attempt(p.purpose, actor, actor, revision, b.identity, b.attempt + 1, Pending, p.material, "",
            s.now, s.now + ATTEMPT_LIFE)
  }

  function Started(l: Logins, key: AttemptKey, b: Binding, row: Attempt): Logins {
    l.(bindings := l.bindings[key.binding := b.(attempt := b.attempt + 1)],
       attempts := SupersedeLive(l.attempts, key.binding, None)[key := row])
  }

  function StartCommit(s: State, pid: Pid, lost: bool): State {
    if pid !in s.procs || !s.procs[pid].StartSealed? then s
    else
      var p := s.procs[pid];
      if !StartAllowed(s, p) then Discard(s, pid, [p.material])
      else if lost then End(s, pid)
      else
        var b := StartBinding(s, p).value;
        End(s, pid).(login := Started(s.login, p.key, b, StartRow(s, p, b)))
  }

  // ---- CompleteCallback ----

  datatype CodeReply = Code | AccessDenied | ProviderError

  predicate GenerationsMatch(l: Logins, key: AttemptKey) {
    && key in l.attempts
    && key.binding in l.bindings
    && l.attempts[key].identity == l.bindings[key.binding].identity
    && l.attempts[key].attempt == l.bindings[key.binding].attempt
  }

  function CallbackBegin(s: State, pid: Pid, key: AttemptKey, reply: CodeReply): State {
    if pid in s.procs || !GenerationsMatch(s.login, key) || s.login.bindings[key.binding].expiresAt <= s.now then s
    else
      var row := s.login.attempts[key];
      if !row.state.Pending? || row.expiresAt <= s.now then s
      else match reply
        case AccessDenied => SetAttempt(s, key, row.(state := Cancelled))
        case ProviderError => SetAttempt(s, key, row.(state := Unknown))
        case Code => Put(SetAttempt(s, key, row.(state := Exchanging)), pid, Exchange(key, row.material))
  }

  datatype ExchangeReply = ExchangeError | Tokens(ref: Ref, renewable: bool)

  /** Open the material, exchange the code, seal the tokens. */
  function CallbackExchange(s: State, pid: Pid, reply: ExchangeReply): State {
    if pid !in s.procs || !s.procs[pid].Exchange? then s
    else
      var p := s.procs[pid];
      if reply.ExchangeError? || !Openable(s, p.material) then Put(s, pid, ExchangeFailed(p.key))
      else if !Fresh(s, reply.ref) then s
      else Put(Seal(s, reply.ref, AttemptToken(p.key), pid), pid, TokenSealed(p.key, reply.ref, reply.renewable))
  }

  predicate InState(l: Logins, key: AttemptKey, state: AttemptState) {
    key in l.attempts && l.attempts[key].state == state
  }

  function MarkUnknown(s: State, pid: Pid): State {
    if pid !in s.procs || !s.procs[pid].ExchangeFailed? then s
    else
      var key := s.procs[pid].key;
      if !InState(s.login, key, Exchanging) then End(s, pid)
      else SetAttempt(End(s, pid), key, s.login.attempts[key].(state := Unknown))
  }

  function StoreToken(s: State, pid: Pid, lost: bool): State {
    if pid !in s.procs || !s.procs[pid].TokenSealed? then s
    else
      var p := s.procs[pid];
      if lost then End(s, pid)
      else if !InState(s.login, p.key, Exchanging) || s.login.attempts[p.key].expiresAt <= s.now then
        Discard(s, pid, [p.token])
      else SetAttempt(Put(s, pid, Identify(p.key, p.renewable)), p.key,
                      s.login.attempts[p.key].(state := IdentityPending, token := p.token))
  }

  // ---- confirmIdentity ----

  /** Identity call, lookup of the attempt and the two seals; an empty `refresh` for a renewable
      token set is a failed second seal. */
  function ConfirmLookup(s: State, pid: Pid, identity: Option<Actor>, access: Ref, refresh: Ref): State {
    if pid !in s.procs || !s.procs[pid].Identify? then s
    else
      var p := s.procs[pid];
      if identity.None? || !InState(s.login, p.key, IdentityPending) || s.login.attempts[p.key].expiresAt <= s.now then
        End(s, pid)
      else
        var row := s.login.attempts[p.key];
        if row.purpose.Reconnect? && row.expected != identity then Put(s, pid, Mismatch(p.key))
        else if !Fresh(s, access) || (p.renewable && (refresh in s.creds.versions || refresh == access)) then s
        else
          var sealed := Seal(s, access, UserToken(identity.value), pid);
          if !p.renewable then Put(sealed, pid, ConfirmSealed(p.key, identity.value, access, ""))
          else if refresh == "" then Discard(sealed, pid, [access])
          else Put(Seal(sealed, refresh, RefreshToken(identity.value), pid), pid,
                   ConfirmSealed(p.key, identity.value, access, refresh))
  }

  function RejectAttempt(s: State, pid: Pid): State {
    if pid !in s.procs || !s.procs[pid].Mismatch? then s
    else
      var key := s.procs[pid].key;
      if !InState(s.login, key, IdentityPending) then End(s, pid)
      else SetAttempt(End(s, pid), key, s.login.attempts[key].(state := Rejected))
  }

  /** A credential newer than the attempt, or not the one a reconnect was started for. */
  predicate Stale(s: State, actor: Actor, row: Attempt) {
    var revision := if actor in s.creds.conns then s.creds.conns[actor].revision else "";
    || (row.purpose.Reconnect? && row.expectedRevision != Some(revision))
    || (row.purpose.Login? && actor in s.creds.conns && s.creds.conns[actor].committedAt > row.createdAt)
  }

  predicate ConfirmAllowed(l: Logins, now: nat, key: AttemptKey) {
    && GenerationsMatch(l, key)
    && l.bindings[key.binding].expiresAt > now
    && l.attempts[key].state.IdentityPending?
    && l.attempts[key].expiresAt > now
  }

  function RevokeAll(sessions: map<string, Session>, binding: string): map<string, Session> {
    map h | h in sessions ::
      if sessions[h].binding == binding then sessions[h].(revoked := true) else sessions[h]
  }

  /** The binding, session and attempt rows of a confirmation. */
  function Granted(l: Logins, now: nat, key: AttemptKey, actor: Actor, hash: string): Logins
    requires ConfirmAllowed(l, now, key)
  {
    var b := l.bindings[key.binding];
    var row := Session(actor, key.binding, b.identity + 1, now + SESSION_LIFE, now, false, key);
    l.(bindings := l.bindings[key.binding := b.(identity := b.identity + 1)],
       sessions := RevokeAll(l.sessions, key.binding)[hash := row],
       attempts := l.attempts[key := l.attempts[key].(state := Confirmed, actor := Some(actor))])
  }

  datatype Grant = Grant(hash: string, revision: string, accessExpires: Option<nat>, refreshExpires: Option<nat>)

  function ConfirmCommit(s: State, pid: Pid, grant: Grant, disabled: bool, lost: bool): State {
    if pid !in s.procs || !s.procs[pid].ConfirmSealed? then s
    else
      var p := s.procs[pid];
      if grant.hash in s.login.sessions then s
      else if !ConfirmAllowed(s.login, s.now, p.key) || disabled then Discard(s, pid, [p.access, p.refresh])
      else if Stale(s, p.actor, s.login.attempts[p.key]) then
        var t := Discard(s, pid, [p.access, p.refresh]);
        if lost then t else SetAttempt(t, p.key, s.login.attempts[p.key].(state := Superseded))
      else if lost then End(s, pid)
      else
        var epoch := if p.actor in s.creds.conns then s.creds.conns[p.actor].epoch + 1 else 1;
        var t := SetConnection(End(s, pid), p.actor,
          Connection(grant.revision, epoch, p.access, p.refresh, grant.accessExpires, grant.refreshExpires,
                     Connected, Idle, s.now));
        t.(login := Granted(s.login, s.now, p.key, p.actor, grant.hash))
  }

  // ---- RunOne's identity step, Session, Logout ----

  function WorkerPick(s: State, pid: Pid, key: AttemptKey, renewable: bool): State {
    if pid in s.procs || !ConfirmAllowed(s.login, s.now, key) || !Openable(s, s.login.attempts[key].token) then s
    else Put(s, pid, Identify(key, renewable))
  }

  function Touched(l: Logins, now: nat, hash: string): Logins {
    if hash !in l.sessions then l
    else l.(sessions := l.sessions[hash := l.sessions[hash].(lastActive := now)])
  }

  /** Logout's transaction. Its session was valid at some earlier moment; the transaction itself
      only looks at the binding's generation and at `revoked`. */
  function LoggedOut(l: Logins, hash: string): Logins {
    if hash !in l.sessions || l.sessions[hash].binding !in l.bindings || l.sessions[hash].revoked then l
    else
      var row := l.sessions[hash];
      var b := l.bindings[row.binding];
      var revoked := l.(sessions := l.sessions[hash := row.(revoked := true)]);
      if b.identity != row.generation then revoked
      else revoked.(
        bindings := l.bindings[row.binding := b.(identity := b.identity + 1, attempt := b.attempt + 1)],
        attempts := SupersedeLive(l.attempts, row.binding, Some(row.generation)))
  }

  // ---- maintain, cleanOrphans, discard ----

  function ExpireRow(row: Attempt, now: nat): Attempt {
    if row.expiresAt > now then row
    else match row.state
      case Pending => row.(state := Expired)
      case Exchanging => row.(state := Unknown)
      case IdentityPending => row.(state := Unknown)
      case _ => row
  }

  function ExpireRows(attempts: map<AttemptKey, Attempt>, now: nat): map<AttemptKey, Attempt> {
    map k | k in attempts :: ExpireRow(attempts[k], now)
  }

  predicate Sweepable(row: Attempt) {
    || (row.material != "" && !row.state.Pending? && !row.state.Exchanging?)
    || (row.token != "" && !row.state.IdentityPending? && !row.state.Exchanging?)
  }

  function RowOps(key: AttemptKey, row: Attempt): seq<SweepOp> {
    (if row.material == "" then [] else [Destroy(row.material), ClearMaterial(key, row.material)]) +
    (if row.token == "" || row.state.IdentityPending? then [] else [Destroy(row.token), ClearToken(key, row.token)])
  }

  function SweepOps(attempts: map<AttemptKey, Attempt>, keys: seq<AttemptKey>): seq<SweepOp>
    requires forall k | k in keys :: k in attempts
    decreases |keys|
  {
    if keys == [] then [] else RowOps(keys[0], attempts[keys[0]]) + SweepOps(attempts, keys[1..])
  }

  function MaintainSelect(s: State, pid: Pid, keys: seq<AttemptKey>): State {
    var attempts := s.login.attempts;
    if pid in s.procs || !(forall k | k in keys :: k in attempts && Sweepable(attempts[k])) then s
    else Put(s, pid, Sweep(SweepOps(attempts, keys)))
  }

  predicate Referenced(s: State, ref: Ref) {
    || (exists k | k in s.login.attempts :: s.login.attempts[k].material == ref || s.login.attempts[k].token == ref)
    || (exists a | a in s.creds.conns :: s.creds.conns[a].access == ref || s.creds.conns[a].refresh == ref)
  }

  predicate Orphan(s: State, ref: Ref) {
    && Openable(s, ref)
    && s.creds.versions[ref].createdAt + ORPHAN_AGE < s.now
    && !Referenced(s, ref)
  }

  function OrphanSelect(s: State, pid: Pid, refs: seq<Ref>): State {
    if pid in s.procs || !(forall r | r in refs :: Orphan(s, r)) then s
    else Discard(s, pid, refs)
  }

  function Perform(s: State, op: SweepOp): State {
    match op
    case Destroy(ref) =>
      if ref !in s.creds.versions then s else SetVersion(s, ref, s.creds.versions[ref].(destroyed := true))
    case ClearMaterial(key, ref) =>
      if key !in s.login.attempts || s.login.attempts[key].material != ref then s
      else SetAttempt(s, key, s.login.attempts[key].(material := ""))
    case ClearToken(key, ref) =>
      if key !in s.login.attempts || s.login.attempts[key].token != ref then s
      else SetAttempt(s, key, s.login.attempts[key].(token := ""))
  }

  function SweepStep(s: State, pid: Pid): State {
    if pid !in s.procs || !s.procs[pid].Sweep? then s
    else
      var ops := s.procs[pid].ops;
      if ops == [] then End(s, pid) else Perform(Put(s, pid, Sweep(ops[1..])), ops[0])
  }

  // ---- credential ----

  predicate Expiring(c: Connection, now: nat) {
    c.accessExpires.Some? && c.accessExpires.value <= now + REFRESH_MARGIN
  }

  predicate Renewable(c: Connection, now: nat) {
    c.refresh != "" && (c.refreshExpires.None? || c.refreshExpires.value > now)
  }

  predicate Holds(conns: map<Actor, Connection>, actor: Actor, revision: string, epoch: nat) {
    actor in conns && conns[actor].revision == revision && conns[actor].epoch == epoch
  }

  function CredentialRead(s: State, pid: Pid, actor: Actor): State {
    if pid in s.procs || actor !in s.creds.conns then s
    else
      var c := s.creds.conns[actor];
      if !Serving(c) || !Expiring(c, s.now) || !Renewable(c, s.now) then s
      else Put(s, pid, RefreshReady(actor, c.revision, c.epoch, c.refresh))
  }

  function RefreshClaim(s: State, pid: Pid): State {
    if pid !in s.procs || !s.procs[pid].RefreshReady? then s
    else
      var p := s.procs[pid];
      if !Holds(s.creds.conns, p.actor, p.revision, p.epoch) || !s.creds.conns[p.actor].refreshState.Idle? then End(s, pid)
      else
        var t := Put(s, pid, RefreshClaimed(p.actor, p.revision, p.epoch, p.refresh));
        t.(creds := s.creds.(
          conns := s.creds.conns[p.actor := s.creds.conns[p.actor].(refreshState := Claimed)],
          claimed := s.creds.claimed + {p.refresh}))
  }

  /** Open the refresh token and hand it to the provider. */
  function RefreshSend(s: State, pid: Pid): State {
    if pid !in s.procs || !s.procs[pid].RefreshClaimed? then s
    else
      var p := s.procs[pid];
      if !Openable(s, p.refresh) then Put(s, pid, RefreshFailed(p.actor, p.revision, p.epoch, []))
      else Put(s, pid, RefreshSent(p.actor, p.revision, p.epoch)).(
        creds := s.creds.(presented := s.creds.presented + [p.refresh]))
  }

  datatype RefreshReply = RefreshError | NewTokens(access: Ref, refresh: Ref, renewable: bool)

  function RefreshAnswer(s: State, pid: Pid, reply: RefreshReply): State {
    if pid !in s.procs || !s.procs[pid].RefreshSent? then s
    else
      var p := s.procs[pid];
      if reply.RefreshError? then Put(s, pid, RefreshFailed(p.actor, p.revision, p.epoch, []))
      else if !Fresh(s, reply.access)
              || (reply.renewable && (reply.refresh in s.creds.versions || reply.refresh == reply.access)) then s
      else
        var sealed := Seal(s, reply.access, UserToken(p.actor), pid);
        if !reply.renewable then Put(sealed, pid, RefreshSealed(p.actor, p.revision, p.epoch, reply.access, ""))
        else if reply.refresh == "" then Put(sealed, pid, RefreshFailed(p.actor, p.revision, p.epoch, [reply.access]))
        else Put(Seal(sealed, reply.refresh, RefreshToken(p.actor), pid), pid,
                 RefreshSealed(p.actor, p.revision, p.epoch, reply.access, reply.refresh))
  }

  function RefreshCommit(s: State, pid: Pid, revision: string, accessExpires: Option<nat>, refreshExpires: Option<nat>, lost: bool)
    : State
  {
    if pid !in s.procs || !s.procs[pid].RefreshSealed? then s
    else
      var p := s.procs[pid];
      if lost then End(s, pid)
      else if !Holds(s.creds.conns, p.actor, p.revision, p.epoch) || !s.creds.conns[p.actor].refreshState.Claimed? then
        Discard(s, pid, [p.access, p.refresh])
      else SetConnection(End(s, pid), p.actor,
        Connection(revision, p.epoch + 1, p.access, p.refresh, accessExpires, refreshExpires, Connected, Idle, s.now))
  }

  /** refreshUnknown, then the deferred discard. */
  function RefreshGiveUp(s: State, pid: Pid): State {
    if pid !in s.procs || !s.procs[pid].RefreshFailed? then s
    else
      var p := s.procs[pid];
      var t := Discard(s, pid, p.leftovers);
      if !Holds(s.creds.conns, p.actor, p.revision, p.epoch) || !s.creds.conns[p.actor].refreshState.Claimed? then t
      else SetConnection(t, p.actor,
        s.creds.conns[p.actor].(refreshState := RefreshUnknown, status := StatusUnknown))
  }

  /** rejectCredential, issued by anyone who ever held a credential of (revision, epoch). */
  function RejectCredential(s: State, actor: Actor, revision: string, epoch: nat): State {
    if !Holds(s.creds.conns, actor, revision, epoch) then s
    else SetConnection(s, actor, s.creds.conns[actor].(status := Missing, epoch := epoch + 1))
  }

  // ---- repository discovery ----

  function BatchCreate(s: State, id: string, actor: Actor): State {
    if id in s.batches || actor !in s.creds.conns then s
    else
      var c := s.creds.conns[actor];
      SetBatch(s, id,
        Batch(actor, c.revision, c.epoch, 1, false, false, 0, None, s.now, s.now + BATCH_LIFE, map[], c.access))
  }

  function BatchClaim(s: State, pid: Pid, id: string): State {
    if pid in s.procs || id !in s.batches then s
    else
      var b := s.batches[id];
      if b.complete || b.expiresAt <= s.now || b.nextRun > s.now || (b.lease.Some? && b.lease.value >= s.now) then s
      else if !Holds(s.creds.conns, b.actor, b.revision, b.epoch) then s
      else SetBatch(Put(s, pid, BatchClaimed(id, b.claim + 1)), id,
                    b.(claim := b.claim + 1, lease := Some(s.now + LEASE)))
  }

  function BatchReadBack(s: State, pid: Pid): State {
    if pid !in s.procs || !s.procs[pid].BatchClaimed? then s
    else
      var p := s.procs[pid];
      if p.id !in s.batches || s.batches[p.id].claim != p.claim then End(s, pid)
      else Put(s, pid, BatchRead(p.id, s.batches[p.id]))
  }

  function BatchCredential(s: State, pid: Pid): State {
    if pid !in s.procs || !s.procs[pid].BatchRead? then s
    else
      var p := s.procs[pid];
      var b := p.batch;
      if b.actor !in s.creds.conns || !Serving(s.creds.conns[b.actor]) || Expiring(s.creds.conns[b.actor], s.now)
         || !Openable(s, s.creds.conns[b.actor].access)
      then Put(s, pid, Deferring(p.id, b.claim))
      else Put(s, pid, Fetching(p.id, b, s.creds.conns[b.actor].epoch, s.creds.conns[b.actor].access, [], b.cursor, 0))
  }

  /** One page request of the fetch loop, with the token held since BatchCredential. */
  function BatchPage(up: Upstream, s: State, pid: Pid, failed: bool): State {
    if pid !in s.procs || !s.procs[pid].Fetching? then s
    else
      var p := s.procs[pid];
      if p.pages == 2 || p.next == 0 then s
      else if failed then (if p.pages == 0 then Put(s, pid, Deferring(p.id, p.batch.claim)) else s)
      else
        var page := up(p.access, p.next);
        Put(s, pid, p.(found := p.found + page.items, next := page.next, pages := p.pages + 1))
  }

  /** The upserts of one commit, a later item overwriting an earlier one with the same id. */
  function Upserts(repos: map<int, Repo>, items: seq<Repo>): map<int, Repo>
    decreases |items|
  {
    if items == [] then repos else Upserts(repos[items[0].id := items[0]], items[1..])
  }

  function BatchCommit(s: State, pid: Pid, delay: nat): State {
    if pid !in s.procs || !s.procs[pid].Fetching? || s.procs[pid].pages == 0 then s
    else
      var p := s.procs[pid];
      var b := p.batch;
      if !Holds(s.creds.conns, b.actor, b.revision, b.epoch) || !Serving(s.creds.conns[b.actor]) then End(s, pid)
      else if p.id !in s.batches || s.batches[p.id].expiresAt <= s.now || s.batches[p.id].claim != b.claim then End(s, pid)
      else
        var row := s.batches[p.id];
        var complete := p.next == 0;
        SetBatch(End(s, pid), p.id, row.(
          repos := Upserts(row.repos, p.found), cursor := if complete then b.cursor else p.next,
          complete := complete, hadSuccess := true, lease := None, nextRun := s.now + delay + 1))
  }

  function BatchDefer(s: State, pid: Pid, delay: nat): State {
    if pid !in s.procs || !s.procs[pid].Deferring? then s
    else
      var p := s.procs[pid];
      if p.id !in s.batches || s.batches[p.id].claim != p.claim then End(s, pid)
      else SetBatch(End(s, pid), p.id, s.batches[p.id].(lease := None, nextRun := s.now + delay + 1))
  }

  // ---- runs ----

  datatype LoginAction =
    | DoStartSeal(key: AttemptKey, purpose: Purpose, session: Option<string>, ref: Ref)
    | DoStartCommit(lost: bool)
    | DoCallbackBegin(key: AttemptKey, code: CodeReply)
    | DoCallbackExchange(exchange: ExchangeReply)
    | DoMarkUnknown
    | DoStoreToken(lost: bool)
    | DoConfirmLookup(identity: Option<Actor>, access: Ref, refresh: Ref)
    | DoRejectAttempt
    | DoConfirmCommit(grant: Grant, disabled: bool, lost: bool)
    | DoWorkerPick(key: AttemptKey, renewable: bool)
    | DoTouch(hash: string)
    | DoLogout(hash: string)

  datatype SweepAction =
    | DoExpire
    | DoMaintainSelect(keys: seq<AttemptKey>)
    | DoOrphanSelect(refs: seq<Ref>)
    | DoSweepStep

  datatype RefreshAction =
    | DoCredentialRead(actor: Actor)
    | DoRefreshClaim
    | DoRefreshSend
    | DoRefreshAnswer(reply: RefreshReply)
    | DoRefreshCommit(revision: string, accessExpires: Option<nat>, refreshExpires: Option<nat>, lost: bool)
    | DoRefreshGiveUp
    | DoRejectCredential(actor: Actor, revision: string, epoch: nat)

  datatype BatchAction =
    | DoBatchCreate(id: string, actor: Actor)
    | DoBatchClaim(id: string)
    | DoBatchReadBack
    | DoBatchCredential
    | DoBatchPage(failed: bool)
    | DoBatchCommit(delay: nat)
    | DoBatchDefer(delay: nat)

  datatype Action =
    | Tick(seconds: nat)
    | Crash(pid: Pid)
    | LoginStep(pid: Pid, login: LoginAction)
    | SweepStepOf(pid: Pid, sweep: SweepAction)
    | RefreshStep(pid: Pid, refresh: RefreshAction)
    | BatchStep(pid: Pid, batch: BatchAction)

  function ApplyLogin(s: State, pid: Pid, a: LoginAction): State {
    match a
    case DoStartSeal(key, purpose, session, ref) => StartSeal(s, pid, key, purpose, session, ref)
    case DoStartCommit(lost) => StartCommit(s, pid, lost)
    case DoCallbackBegin(key, code) => CallbackBegin(s, pid, key, code)
    case DoCallbackExchange(exchange) => CallbackExchange(s, pid, exchange)
    case DoMarkUnknown => MarkUnknown(s, pid)
    case DoStoreToken(lost) => StoreToken(s, pid, lost)
    case DoConfirmLookup(identity, access, refresh) => ConfirmLookup(s, pid, identity, access, refresh)
    case DoRejectAttempt => RejectAttempt(s, pid)
    case DoConfirmCommit(grant, disabled, lost) => ConfirmCommit(s, pid, grant, disabled, lost)
    case DoWorkerPick(key, renewable) => WorkerPick(s, pid, key, renewable)
    case DoTouch(hash) => s.(login := Touched(s.login, s.now, hash))
    case DoLogout(hash) => s.(login := LoggedOut(s.login, hash))
  }

  function ApplySweep(s: State, pid: Pid, a: SweepAction): State {
    match a
    case DoExpire => s.(login := s.login.(attempts := ExpireRows(s.login.attempts, s.now)))
    case DoMaintainSelect(keys) => MaintainSelect(s, pid, keys)
    case DoOrphanSelect(refs) => OrphanSelect(s, pid, refs)
    case DoSweepStep => SweepStep(s, pid)
  }

  function ApplyRefresh(s: State, pid: Pid, a: RefreshAction): State {
    match a
    case DoCredentialRead(actor) => CredentialRead(s, pid, actor)
    case DoRefreshClaim => RefreshClaim(s, pid)
    case DoRefreshSend => RefreshSend(s, pid)
    case DoRefreshAnswer(reply) => RefreshAnswer(s, pid, reply)
    case DoRefreshCommit(revision, accessExpires, refreshExpires, lost) =>
      RefreshCommit(s, pid, revision, accessExpires, refreshExpires, lost)
    case DoRefreshGiveUp => RefreshGiveUp(s, pid)
    case DoRejectCredential(actor, revision, epoch) => RejectCredential(s, actor, revision, epoch)
  }

  function ApplyBatch(up: Upstream, s: State, pid: Pid, a: BatchAction): State {
    match a
    case DoBatchCreate(id, actor) => BatchCreate(s, id, actor)
    case DoBatchClaim(id) => BatchClaim(s, pid, id)
    case DoBatchReadBack => BatchReadBack(s, pid)
    case DoBatchCredential => BatchCredential(s, pid)
    case DoBatchPage(failed) => BatchPage(up, s, pid, failed)
    case DoBatchCommit(delay) => BatchCommit(s, pid, delay)
    case DoBatchDefer(delay) => BatchDefer(s, pid, delay)
  }

  function Apply(up: Upstream, s: State, a: Action): State {
    match a
    case Tick(seconds) => s.(now := s.now + seconds)
    case Crash(pid) => End(s, pid)
    case LoginStep(pid, login) => ApplyLogin(s, pid, login)
    case SweepStepOf(pid, sweep) => ApplySweep(s, pid, sweep)
    case RefreshStep(pid, refresh) => ApplyRefresh(s, pid, refresh)
    case BatchStep(pid, batch) => ApplyBatch(up, s, pid, batch)
  }

  /** The state after any interleaving of any operations. */
  function Run(up: Upstream, s: State, actions: seq<Action>): State
    decreases |actions|
  {
    if actions == [] then s else Run(up, Apply(up, s, actions[0]), actions[1..])
  }
}
