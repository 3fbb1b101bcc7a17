/** Refresh tokens are used once, (revision, access_epoch) never names two different credentials, and a
    connection whose refresh was lost serves nothing until the account logs in again. */
module CredentialSafety {
  import opened AccessModel
  import opened Text
  import SecretSafety

  type Conns = map<Actor, Connection>
  type Procs = map<Pid, Proc>

  /** What a connection row may become: a later epoch, or the same credential moved along
      idle -> claimed -> unknown. */
  predicate Evolves(c: Connection, c': Connection) {
    || c.epoch < c'.epoch
    || (&& c.epoch == c'.epoch && c.revision == c'.revision && c.access == c'.access && c.refresh == c'.refresh
        && c.accessExpires == c'.accessExpires && c.refreshExpires == c'.refreshExpires
        && (c'.refreshState.Idle? ==> c.refreshState.Idle? && c'.status == c.status)
        && (c'.refreshState.Claimed? ==> !c.refreshState.RefreshUnknown? && c'.status == c.status))
  }

  ghost predicate ConnsEvolve(c: Conns, c': Conns) {
    forall x | x in c :: x in c' && Evolves(c[x], c'[x])
  }

  /** A claim in flight: read-and-claimed, sent, answered or given up. */
  predicate InFlight(p: Proc) {
    p.RefreshClaimed? || p.RefreshSent? || p.RefreshSealed? || p.RefreshFailed?
  }

  /** The claimed row has moved on, or is still claimed for this operation. */
  predicate ClaimOk(c: Conns, x: Actor, revision: string, epoch: nat) {
    && x in c && epoch <= c[x].epoch
    && (c[x].epoch == epoch ==>
          && c[x].revision == revision && !c[x].refreshState.Idle?
          && (c[x].refreshState.Claimed? ==> c[x].status.Connected?))
  }

  predicate ReadyOk(c: Conns, x: Actor, revision: string, epoch: nat, refresh: Ref) {
    && x in c && epoch <= c[x].epoch
    && (c[x].epoch == epoch ==>
          && c[x].revision == revision && c[x].refresh == refresh
          && (!c[x].refreshState.RefreshUnknown? ==> c[x].status.Connected?))
  }

  predicate ProcOk(c: Credentials, p: Proc) {
    && SecretSafety.Held(p) !! c.claimed
    && match p
       case RefreshReady(x, revision, epoch, refresh) => refresh != "" && ReadyOk(c.conns, x, revision, epoch, refresh)
       case RefreshClaimed(x, revision, epoch, refresh) =>
         ClaimOk(c.conns, x, revision, epoch) && refresh in c.claimed && refresh !in c.presented
       case RefreshSent(x, revision, epoch) => ClaimOk(c.conns, x, revision, epoch)
       case RefreshSealed(x, revision, epoch, _, _) => ClaimOk(c.conns, x, revision, epoch)
       case RefreshFailed(x, revision, epoch, _) => ClaimOk(c.conns, x, revision, epoch)
       case _ => true
  }

  /** Two operations with the same claim, or about to present the same reference. */
  predicate Clash(p: Proc, q: Proc) {
    || (InFlight(p) && InFlight(q) && p.actor == q.actor && p.epoch == q.epoch)
    || (p.RefreshClaimed? && q.RefreshClaimed? && p.refresh == q.refresh)
  }

  /** A reference once claimed never serves again. */
  predicate UsedOk(c: Credentials, r: Ref) {
    && r != "" && r in c.versions && c.versions[r].owner.RefreshToken?
    && var x := c.versions[r].owner.actor;
    && x in c.conns && (c.conns[x].refresh == r ==> !Serving(c.conns[x]))
  }

  ghost predicate ProcsOk(c: Credentials, procs: Procs) {
    forall q {:trigger ProcOk(c, procs[q])} | q in procs :: ProcOk(c, procs[q])
  }

  ghost predicate NoClash(procs: Procs) {
    forall q1, q2 {:trigger Clash(procs[q1], procs[q2])} | q1 in procs && q2 in procs && q1 != q2 ::
      !Clash(procs[q1], procs[q2])
  }

  ghost predicate AllUsed(c: Credentials) {
    forall r {:trigger UsedOk(c, r)} | r in c.claimed :: UsedOk(c, r)
  }

  ghost predicate PresentedOk(c: Credentials) {
    && (forall r | r in c.presented :: r in c.claimed)
    && (forall i, j | 0 <= i < j < |c.presented| :: c.presented[i] != c.presented[j])
  }

  ghost predicate CredInv(s: State) {
    ProcsOk(s.creds, s.procs) && NoClash(s.procs) && AllUsed(s.creds) && PresentedOk(s.creds)
  }

  // ---- one step ----

  /** Connections evolve, and what they now refresh with was never claimed. */
  ghost predicate CredsMove(c: Credentials, c': Credentials) {
    && ConnsEvolve(c.conns, c'.conns)
    && c'.claimed == c.claimed && c'.presented == c.presented
    && (forall r | r in c.versions :: r in c'.versions && c'.versions[r].owner == c.versions[r].owner)
    && (forall x | x in c'.conns ::
          || (x in c.conns && c'.conns[x].refresh == c.conns[x].refresh && (Serving(c'.conns[x]) ==> Serving(c.conns[x])))
          || c'.conns[x].refresh !in c.claimed)
  }

  lemma ProcStays(c: Credentials, c': Credentials, p: Proc)
    requires CredsMove(c, c') && ProcOk(c, p)
    ensures ProcOk(c', p)
  {
  }

  lemma UsedStays(c: Credentials, c': Credentials)
    requires CredsMove(c, c') && AllUsed(c)
    ensures AllUsed(c')
  {
    forall r | r in c'.claimed ensures UsedOk(c', r) {
      assert UsedOk(c, r);
    }
  }

  ghost predicate Alone(procs: Procs, pid: Pid, p: Proc) {
    forall q | q in procs && q != pid :: !Clash(p, procs[q])
  }

  lemma MovesKeep(s: State, t: State, pid: Pid)
    requires CredInv(s) && CredsMove(s.creds, t.creds)
    requires SecretSafety.SameBut(s.procs, t.procs, pid)
    requires pid in t.procs ==> ProcOk(t.creds, t.procs[pid]) && Alone(s.procs, pid, t.procs[pid])
    ensures CredInv(t)
  {
    UsedStays(s.creds, t.creds);
    forall q | q in t.procs ensures ProcOk(t.creds, t.procs[q]) {
      if q != pid {
        assert ProcOk(s.creds, s.procs[q]);
        ProcStays(s.creds, t.creds, s.procs[q]);
      }
    }
    forall q1, q2 | q1 in t.procs && q2 in t.procs && q1 != q2 ensures !Clash(t.procs[q1], t.procs[q2]) {
      assert q1 != pid && q2 != pid ==> !Clash(s.procs[q1], s.procs[q2]);
    }
  }

  /** A step outside the refresh protocol: it leaves the connections alone, and what the operation
      now holds it held before or has just sealed. */
  ghost predicate Outside(s: State, t: State, pid: Pid) {
    && t.creds.conns == s.creds.conns && t.creds.claimed == s.creds.claimed && t.creds.presented == s.creds.presented
    && SecretSafety.VersionsGrow(s.creds.versions, t.creds.versions)
    && SecretSafety.SameBut(s.procs, t.procs, pid)
    && (pid in t.procs && (pid !in s.procs || t.procs[pid] != s.procs[pid]) ==>
          && !InFlight(t.procs[pid]) && !t.procs[pid].RefreshReady?
          && forall r | r in SecretSafety.Held(t.procs[pid]) :: r !in s.creds.versions)
  }

  lemma OutsideKeeps(s: State, t: State, pid: Pid)
    requires CredInv(s) && Outside(s, t, pid)
    ensures CredInv(t) && ConnsEvolve(s.creds.conns, t.creds.conns)
  {
    forall r | r in s.creds.claimed ensures r in s.creds.versions {
      assert UsedOk(s.creds, r);
    }
    if pid in s.procs {
      assert ProcOk(s.creds, s.procs[pid]);
      ProcStays(s.creds, t.creds, s.procs[pid]);
      forall q | q in s.procs && q != pid ensures !Clash(s.procs[pid], s.procs[q]) {}
    }
    MovesKeep(s, t, pid);
  }

  lemma StartSealOutside(s: State, pid: Pid, key: AttemptKey, purpose: Purpose, session: Option<string>, ref: Ref)
    ensures Outside(s, StartSeal(s, pid, key, purpose, session, ref), pid)
  {
  }

  lemma ExchangeOutside(s: State, pid: Pid, reply: ExchangeReply)
    ensures Outside(s, CallbackExchange(s, pid, reply), pid)
  {
  }

  lemma SealsOutside(s: State, t: State, pid: Pid, sealed: set<Ref>)
    requires SecretSafety.Seals(s, t, pid, sealed)
    requires t.creds.claimed == s.creds.claimed && t.creds.presented == s.creds.presented
    requires !InFlight(t.procs[pid]) && !t.procs[pid].RefreshReady?
    ensures Outside(s, t, pid)
  {
  }

  lemma UnsealedOutside(s: State, t: State, pid: Pid)
    requires t.creds == s.creds
    requires t.procs == s.procs || t.procs == s.procs - {pid}
      || exists key :: t.procs == s.procs[pid := Mismatch(key)]
    ensures Outside(s, t, pid)
  {
  }

  lemma LookupOutside(s: State, pid: Pid, identity: Option<Actor>, access: Ref, refresh: Ref)
    ensures Outside(s, ConfirmLookup(s, pid, identity, access, refresh), pid)
  {
    hide Outside;
    var t := ConfirmLookup(s, pid, identity, access, refresh);
    if t == s || pid !in t.procs || t.procs[pid].Mismatch? {
      UnsealedOutside(s, t, pid);
    } else {
      SecretSafety.LookupSeals(s, pid, identity, access, refresh);
      SealsOutside(s, t, pid, if t.procs[pid].ConfirmSealed? && t.procs[pid].refresh != "" then {access, refresh} else {access});
    }
  }

  lemma CallbackOutside(s: State, pid: Pid, key: AttemptKey, code: CodeReply)
    ensures Outside(s, CallbackBegin(s, pid, key, code), pid)
  {
  }

  lemma StoreOutside(s: State, pid: Pid, lost: bool)
    ensures Outside(s, StoreToken(s, pid, lost), pid)
  {
  }

  lemma CommitOutside(s: State, pid: Pid, lost: bool)
    ensures Outside(s, StartCommit(s, pid, lost), pid)
  {
  }

  lemma PickOutside(s: State, pid: Pid, key: AttemptKey, renewable: bool)
    ensures Outside(s, WorkerPick(s, pid, key, renewable), pid)
  {
  }

  lemma MarkOutside(s: State, pid: Pid)
    ensures Outside(s, MarkUnknown(s, pid), pid)
  {
  }

  lemma RejectOutside(s: State, pid: Pid)
    ensures Outside(s, RejectAttempt(s, pid), pid)
  {
  }

  lemma LoginsOnlyOutside(s: State, l: Logins, pid: Pid)
    ensures Outside(s, s.(login := l), pid)
  {
  }

  lemma LoginOutside(s: State, pid: Pid, a: LoginAction)
    requires !a.DoConfirmCommit?
    ensures Outside(s, ApplyLogin(s, pid, a), pid)
  {
    match a {
      case DoStartSeal(key, purpose, session, ref) => StartSealOutside(s, pid, key, purpose, session, ref);
      case DoStartCommit(lost) => CommitOutside(s, pid, lost);
      case DoStoreToken(lost) => StoreOutside(s, pid, lost);
      case DoCallbackBegin(key, code) => CallbackOutside(s, pid, key, code);
      case DoCallbackExchange(exchange) => ExchangeOutside(s, pid, exchange);
      case DoConfirmLookup(identity, access, refresh) => LookupOutside(s, pid, identity, access, refresh);
      case DoMarkUnknown => MarkOutside(s, pid);
      case DoRejectAttempt => RejectOutside(s, pid);
      case DoWorkerPick(key, renewable) => PickOutside(s, pid, key, renewable);
      case DoTouch(hash) => LoginsOnlyOutside(s, Touched(s.login, s.now, hash), pid);
      case DoLogout(hash) => LoginsOnlyOutside(s, LoggedOut(s.login, hash), pid);
    }
  }

  lemma PerformKeepsCreds(s: State, op: SweepOp)
    ensures var t := Perform(s, op); t.procs == s.procs && t.creds == s.creds.(versions := t.creds.versions)
    ensures SecretSafety.VersionsGrow(s.creds.versions, Perform(s, op).creds.versions)
  {
  }

  lemma PerformOutside(s: State, pid: Pid)
    ensures Outside(s, SweepStep(s, pid), pid)
  {
    if pid in s.procs && s.procs[pid].Sweep? && s.procs[pid].ops != [] {
      var ops := s.procs[pid].ops;
      PerformKeepsCreds(Put(s, pid, Sweep(ops[1..])), ops[0]);
    }
  }

  lemma MaintainOutside(s: State, pid: Pid, keys: seq<AttemptKey>)
    ensures Outside(s, MaintainSelect(s, pid, keys), pid)
  {
  }

  lemma OrphansOutside(s: State, pid: Pid, refs: seq<Ref>)
    ensures Outside(s, OrphanSelect(s, pid, refs), pid)
  {
  }

  lemma SweepOutside(s: State, pid: Pid, a: SweepAction)
    ensures Outside(s, ApplySweep(s, pid, a), pid)
  {
    match a {
      case DoExpire => LoginsOnlyOutside(s, s.login.(attempts := ExpireRows(s.login.attempts, s.now)), pid);
      case DoMaintainSelect(keys) => MaintainOutside(s, pid, keys);
      case DoOrphanSelect(refs) => OrphansOutside(s, pid, refs);
      case DoSweepStep => PerformOutside(s, pid);
    }
  }

  lemma BatchOutside(up: Upstream, s: State, pid: Pid, a: BatchAction)
    ensures Outside(s, ApplyBatch(up, s, pid, a), pid)
  {
    SecretSafety.BatchStepIs(up, s, pid, a);
    hide ApplyBatch;
  }

  lemma UsedAreSealed(s: State)
    requires CredInv(s)
    ensures forall r | r in s.creds.claimed :: r != "" && r in s.creds.versions
  {
    forall r | r in s.creds.claimed ensures r != "" && r in s.creds.versions {
      assert UsedOk(s.creds, r);
    }
  }

  /** A row of a later epoch whose refresh reference was never claimed. */
  lemma Replaced(c: Credentials, x: Actor, row: Connection)
    requires x in c.conns ==> c.conns[x].epoch < row.epoch
    requires row.refresh !in c.claimed
    ensures CredsMove(c, c.(conns := c.conns[x := row]))
  {
  }

  lemma ConfirmMoves(s: State, pid: Pid, grant: Grant, t: State)
    requires CredInv(s) && t == ConfirmCommit(s, pid, grant, false, false) && t.creds != s.creds
    ensures CredsMove(s.creds, t.creds)
  {
    hide CredsMove, SecretSafety.SameBut;
    assert ProcOk(s.creds, s.procs[pid]);
    UsedAreSealed(s);
    var x := s.procs[pid].actor;
    Replaced(s.creds, x, t.creds.conns[x]);
  }

  lemma ConfirmOutside(s: State, pid: Pid, grant: Grant, disabled: bool, lost: bool)
    requires ConfirmCommit(s, pid, grant, disabled, lost).creds == s.creds
    ensures Outside(s, ConfirmCommit(s, pid, grant, disabled, lost), pid)
  {
    var t := ConfirmCommit(s, pid, grant, disabled, lost);
    if pid in s.procs && s.procs[pid].ConfirmSealed? {
      var ops := Discards([s.procs[pid].access, s.procs[pid].refresh]);
      assert t.procs == s.procs || t.procs == s.procs - {pid} || t.procs == s.procs[pid := Sweep(ops)];
      SweepingOutside(s, t, pid, ops);
    }
  }

  lemma SweepingOutside(s: State, t: State, pid: Pid, ops: seq<SweepOp>)
    requires t.creds == s.creds
    requires t.procs == s.procs || t.procs == s.procs - {pid} || t.procs == s.procs[pid := Sweep(ops)]
    ensures Outside(s, t, pid)
  {
  }

  lemma ConfirmKeeps(s: State, pid: Pid, grant: Grant, disabled: bool, lost: bool)
    requires CredInv(s)
    ensures CredInv(ConfirmCommit(s, pid, grant, disabled, lost))
    ensures ConnsEvolve(s.creds.conns, ConfirmCommit(s, pid, grant, disabled, lost).creds.conns)
  {
    var t := ConfirmCommit(s, pid, grant, disabled, lost);
    if t.creds == s.creds {
      ConfirmOutside(s, pid, grant, disabled, lost);
      OutsideKeeps(s, t, pid);
    } else {
      ConfirmMoves(s, pid, grant, t);
      MovesKeep(s, t, pid);
    }
  }

  // ---- the refresh protocol ----

  lemma ReadKeeps(s: State, pid: Pid, actor: Actor)
    requires CredInv(s)
    ensures CredInv(CredentialRead(s, pid, actor))
  {
    if CredentialRead(s, pid, actor) != s {
      MovesKeep(s, CredentialRead(s, pid, actor), pid);
    }
  }

  predicate ClaimGranted(s: State, pid: Pid) {
    && pid in s.procs && s.procs[pid].RefreshReady?
    && Holds(s.creds.conns, s.procs[pid].actor, s.procs[pid].revision, s.procs[pid].epoch)
    && s.creds.conns[s.procs[pid].actor].refreshState.Idle?
  }

  /** The guarded claim: the reference read before is still the row's, and was never claimed. */
  lemma ClaimIsFirst(s: State, pid: Pid)
    requires CredInv(s) && SecretSafety.SecretInv(false, s) && ClaimGranted(s, pid)
    ensures var p := s.procs[pid]; var c := s.creds.conns[p.actor];
      && Serving(c) && c.refresh == p.refresh && p.refresh != "" && p.refresh !in s.creds.claimed
      && SecretSafety.Owned(s.creds.versions, p.refresh, RefreshToken(p.actor))
  {
    var p := s.procs[pid];
    assert ProcOk(s.creds, p);
    assert SecretSafety.ConnRefs(s.creds.versions, p.actor, s.creds.conns[p.actor]);
    assert p.refresh in s.creds.claimed ==> UsedOk(s.creds, p.refresh);
  }

  /** Nobody is about to store the reference that is being claimed. */
  lemma ClaimedIsNotHeld(s: State, pid: Pid, q: Pid)
    requires CredInv(s) && SecretSafety.SecretInv(false, s) && ClaimGranted(s, pid) && q in s.procs
    ensures s.procs[pid].refresh !in SecretSafety.Held(s.procs[q])
  {
    ClaimIsFirst(s, pid);
    assert SecretSafety.ProcOk(false, s, q, s.procs[q]);
  }

  lemma ClaimProcs(s: State, pid: Pid, t: State, q: Pid)
    requires CredInv(s) && SecretSafety.SecretInv(false, s) && ClaimGranted(s, pid) && t == RefreshClaim(s, pid)
    requires q in t.procs && q != pid
    ensures ProcOk(t.creds, t.procs[q]) && !Clash(t.procs[pid], t.procs[q]) && !Clash(t.procs[q], t.procs[pid])
  {
    ClaimIsFirst(s, pid);
    ClaimedIsNotHeld(s, pid, q);
    assert ProcOk(s.creds, s.procs[q]);
  }

  lemma ClaimKeeps(s: State, pid: Pid)
    requires CredInv(s) && SecretSafety.SecretInv(false, s) && ClaimGranted(s, pid)
    ensures CredInv(RefreshClaim(s, pid)) && ConnsEvolve(s.creds.conns, RefreshClaim(s, pid).creds.conns)
  {
    var t := RefreshClaim(s, pid);
    ClaimIsFirst(s, pid);
    forall q | q in t.procs ensures ProcOk(t.creds, t.procs[q]) {
      if q != pid { ClaimProcs(s, pid, t, q); }
    }
    forall q1, q2 | q1 in t.procs && q2 in t.procs && q1 != q2 ensures !Clash(t.procs[q1], t.procs[q2]) {
      if q1 == pid { ClaimProcs(s, pid, t, q2); }
      else if q2 == pid { ClaimProcs(s, pid, t, q1); }
      else { assert !Clash(s.procs[q1], s.procs[q2]); }
    }
    forall r | r in t.creds.claimed ensures UsedOk(t.creds, r) {
      assert r in s.creds.claimed ==> UsedOk(s.creds, r);
    }
  }

  /** The operation moves within its own claim. */
  lemma SameClaimAlone(s: State, pid: Pid, p: Proc)
    requires CredInv(s) && pid in s.procs && InFlight(s.procs[pid]) && InFlight(p) && !p.RefreshClaimed?
    requires p.actor == s.procs[pid].actor && p.epoch == s.procs[pid].epoch
    ensures Alone(s.procs, pid, p)
  {
    forall q | q in s.procs && q != pid ensures !Clash(p, s.procs[q]) {
      assert !Clash(s.procs[pid], s.procs[q]);
    }
  }

  lemma SendKeeps(s: State, pid: Pid)
    requires CredInv(s)
    ensures CredInv(RefreshSend(s, pid)) && ConnsEvolve(s.creds.conns, RefreshSend(s, pid).creds.conns)
  {
    hide CredInv, NoClash, ProcsOk, AllUsed, PresentedOk;
    var t := RefreshSend(s, pid);
    if t != s {
      ProcIs(s, pid);
      SameClaimAlone(s, pid, t.procs[pid]);
      if t.creds == s.creds {
        MovesKeep(s, t, pid);
      } else {
        PresentKeeps(s, pid, t);
      }
    }
  }

  lemma ProcIs(s: State, pid: Pid)
    requires CredInv(s) && pid in s.procs
    ensures ProcOk(s.creds, s.procs[pid])
  {
  }

  lemma PresentKeeps(s: State, pid: Pid, t: State)
    requires CredInv(s) && t == RefreshSend(s, pid) && t.creds != s.creds
    requires pid in t.procs && ProcOk(s.creds, t.procs[pid]) && Alone(s.procs, pid, t.procs[pid])
    ensures CredInv(t)
  {
    hide ClaimOk, UsedOk;
    forall q | q in t.procs
      ensures ProcOk(t.creds, t.procs[q])
    {
      if q != pid {
        StillUnpresented(s, pid, q);
      }
    }
    ReplacedNoClash(s.procs, pid, t.procs[pid]);
    assert forall r :: UsedOk(s.creds, r) <==> UsedOk(t.creds, r) by { UsedIgnoresPresented(s.creds, t.creds); }
    ProcIs(s, pid);
    assert PresentedOk(t.creds);
  }

  lemma UsedIgnoresPresented(c: Credentials, c': Credentials)
    requires c' == c.(presented := c'.presented)
    ensures forall r {:trigger UsedOk(c, r)} {:trigger UsedOk(c', r)} :: UsedOk(c, r) <==> UsedOk(c', r)
  {
  }

  /** Another operation about to present a reference has a different one. */
  lemma StillUnpresented(s: State, pid: Pid, q: Pid)
    requires CredInv(s) && pid in s.procs && s.procs[pid].RefreshClaimed? && q in s.procs && q != pid
    ensures ProcOk(s.creds.(presented := s.creds.presented + [s.procs[pid].refresh]), s.procs[q])
  {
    assert ProcOk(s.creds, s.procs[q]) && !Clash(s.procs[pid], s.procs[q]);
  }

  lemma ReplacedNoClash(procs: Procs, pid: Pid, p: Proc)
    requires NoClash(procs) && Alone(procs, pid, p)
    ensures NoClash(procs[pid := p])
  {
    var procs' := procs[pid := p];
    forall q1, q2 | q1 in procs' && q2 in procs' && q1 != q2
      ensures !Clash(procs'[q1], procs'[q2])
    {
      assert q1 != pid && q2 != pid ==> !Clash(procs[q1], procs[q2]);
    }
  }

  /** Sealing moves no connection, and what was sealed just now was never claimed. */
  lemma SealsCreds(s: State, t: State, pid: Pid, sealed: set<Ref>)
    requires CredInv(s) && SecretSafety.Seals(s, t, pid, sealed)
    requires t.creds.claimed == s.creds.claimed && t.creds.presented == s.creds.presented
    ensures CredsMove(s.creds, t.creds) && SecretSafety.SameBut(s.procs, t.procs, pid)
    ensures SecretSafety.Held(t.procs[pid]) !! t.creds.claimed
  {
    UsedAreSealed(s);
  }

  lemma AnswerMoves(s: State, pid: Pid, reply: RefreshReply)
    requires CredInv(s) && RefreshAnswer(s, pid, reply) != s && !reply.RefreshError?
    ensures var t := RefreshAnswer(s, pid, reply);
      CredsMove(s.creds, t.creds) && SecretSafety.SameBut(s.procs, t.procs, pid)
      && pid in t.procs && SecretSafety.Held(t.procs[pid]) !! t.creds.claimed
  {
    hide CredInv, CredsMove, SecretSafety.Seals, SecretSafety.SameBut;
    var t := RefreshAnswer(s, pid, reply);
    SecretSafety.AnswerSeals(s, pid, reply);
    SealsCreds(s, t, pid, if t.procs[pid].RefreshSealed? && t.procs[pid].refresh != "" then {reply.access, reply.refresh}
                          else {reply.access});
  }

  lemma AnswerKeeps(s: State, pid: Pid, reply: RefreshReply)
    requires CredInv(s)
    ensures CredInv(RefreshAnswer(s, pid, reply)) && ConnsEvolve(s.creds.conns, RefreshAnswer(s, pid, reply).creds.conns)
  {
    hide CredInv, ClaimOk, SecretSafety.SameBut;
    var t := RefreshAnswer(s, pid, reply);
    if t != s {
      ProcIs(s, pid);
      SameClaimAlone(s, pid, t.procs[pid]);
      if reply.RefreshError? {
        OneChanged(s.procs, pid, t.procs[pid]);
      } else {
        AnswerMoves(s, pid, reply);
      }
      MovesKeep(s, t, pid);
    }
  }

  lemma OneChanged(procs: Procs, pid: Pid, p: Proc)
    ensures SecretSafety.SameBut(procs, procs[pid := p], pid)
  {
  }

  lemma CommitMoves(s: State, pid: Pid, revision: string, accessExpires: Option<nat>, refreshExpires: Option<nat>)
    requires CredInv(s) && RefreshCommit(s, pid, revision, accessExpires, refreshExpires, false).creds != s.creds
    ensures var t := RefreshCommit(s, pid, revision, accessExpires, refreshExpires, false);
      CredsMove(s.creds, t.creds) && ConnsEvolve(s.creds.conns, t.creds.conns)
  {
    hide CredsMove;
    assert ProcOk(s.creds, s.procs[pid]);
    UsedAreSealed(s);
    var x := s.procs[pid].actor;
    Replaced(s.creds, x, RefreshCommit(s, pid, revision, accessExpires, refreshExpires, false).creds.conns[x]);
  }

  lemma CommitKeeps(s: State, pid: Pid, revision: string, accessExpires: Option<nat>, refreshExpires: Option<nat>, lost: bool)
    requires CredInv(s)
    ensures var t := RefreshCommit(s, pid, revision, accessExpires, refreshExpires, lost);
      CredInv(t) && ConnsEvolve(s.creds.conns, t.creds.conns)
  {
    hide CredInv, CredsMove;
    var t := RefreshCommit(s, pid, revision, accessExpires, refreshExpires, lost);
    if t.creds == s.creds {
      if t != s {
        var ops := Discards([s.procs[pid].access, s.procs[pid].refresh]);
        SweepingOutside(s, t, pid, ops);
        OutsideKeeps(s, t, pid);
      }
    } else {
      CommitMoves(s, pid, revision, accessExpires, refreshExpires);
      MovesKeep(s, t, pid);
    }
    assert t == s ==> ConnsEvolve(s.creds.conns, t.creds.conns);
  }

  lemma GiveUpKeeps(s: State, pid: Pid)
    requires CredInv(s)
    ensures CredInv(RefreshGiveUp(s, pid)) && ConnsEvolve(s.creds.conns, RefreshGiveUp(s, pid).creds.conns)
  {
    hide CredInv, ProcOk, SecretSafety.SameBut, Alone;
    var t := RefreshGiveUp(s, pid);
    if t != s {
      SweptProc(s.creds, t.creds, s.procs, pid, s.procs[pid].leftovers);
      MovesKeep(s, t, pid);
    }
  }

  lemma {:induction false} SweptProc(c: Credentials, c': Credentials, procs: Procs, pid: Pid, refs: seq<Ref>)
    ensures var p := Sweep(Discards(refs));
      ProcOk(c', p) && Alone(procs, pid, p) && SecretSafety.SameBut(procs, procs[pid := p], pid)
  {
  }

  lemma ProcsUnchangedKeep(s: State, t: State)
    requires CredInv(s) && CredsMove(s.creds, t.creds) && t.procs == s.procs
    ensures CredInv(t)
  {
    UsedStays(s.creds, t.creds);
    forall q | q in t.procs ensures ProcOk(t.creds, t.procs[q]) {
      assert ProcOk(s.creds, s.procs[q]);
      ProcStays(s.creds, t.creds, s.procs[q]);
    }
  }

  lemma RefreshStepKeeps(s: State, pid: Pid, a: RefreshAction)
    requires CredInv(s) && SecretSafety.SecretInv(false, s)
    ensures CredInv(ApplyRefresh(s, pid, a)) && ConnsEvolve(s.creds.conns, ApplyRefresh(s, pid, a).creds.conns)
  {
    hide CredInv, SecretSafety.SecretInv, RefreshSend, RefreshAnswer, RefreshCommit, RefreshGiveUp;
    match a {
      case DoCredentialRead(actor) => ReadKeeps(s, pid, actor);
      case DoRefreshClaim =>
        if ClaimGranted(s, pid) {
          ClaimKeeps(s, pid);
        } else if RefreshClaim(s, pid) != s {
          MovesKeep(s, RefreshClaim(s, pid), pid);
        }
      case DoRefreshSend => SendKeeps(s, pid);
      case DoRefreshAnswer(reply) => AnswerKeeps(s, pid, reply);
      case DoRefreshCommit(revision, accessExpires, refreshExpires, lost) =>
        CommitKeeps(s, pid, revision, accessExpires, refreshExpires, lost);
      case DoRefreshGiveUp => GiveUpKeeps(s, pid);
      case DoRejectCredential(actor, revision, epoch) =>
        ProcsUnchangedKeep(s, RejectCredential(s, actor, revision, epoch));
    }
  }

  lemma LoginStepKeeps(s: State, pid: Pid, a: LoginAction)
    requires CredInv(s)
    ensures CredInv(ApplyLogin(s, pid, a)) && ConnsEvolve(s.creds.conns, ApplyLogin(s, pid, a).creds.conns)
  {
    hide CredInv, Outside;
    if a.DoConfirmCommit? {
      hide ConfirmCommit;
      ConfirmKeeps(s, pid, a.grant, a.disabled, a.lost);
    } else {
      LoginOutside(s, pid, a);
      hide ApplyLogin;
      OutsideKeeps(s, ApplyLogin(s, pid, a), pid);
    }
  }

  lemma StepKeepsInv(up: Upstream, s: State, a: Action)
    requires CredInv(s) && SecretSafety.SecretInv(false, s)
    ensures CredInv(Apply(up, s, a)) && ConnsEvolve(s.creds.conns, Apply(up, s, a).creds.conns)
  {
    hide CredInv, SecretSafety.SecretInv, ApplyLogin, ApplySweep, ApplyRefresh, ApplyBatch, Outside;
    match a {
      case Tick(seconds) => ProcsUnchangedKeep(s, s.(now := s.now + seconds));
      case Crash(pid) => MovesKeep(s, End(s, pid), pid);
      case LoginStep(pid, login) => LoginStepKeeps(s, pid, login);
      case SweepStepOf(pid, sweep) =>
        SweepOutside(s, pid, sweep);
        OutsideKeeps(s, ApplySweep(s, pid, sweep), pid);
      case RefreshStep(pid, refresh) => RefreshStepKeeps(s, pid, refresh);
      case BatchStep(pid, batch) =>
        BatchOutside(up, s, pid, batch);
        OutsideKeeps(s, ApplyBatch(up, s, pid, batch), pid);
    }
  }

  // ---- every run ----

  lemma {:induction false} RunKeeps(up: Upstream, s: State, actions: seq<Action>)
    requires CredInv(s) && SecretSafety.SecretInv(false, s)
    ensures CredInv(Run(up, s, actions)) && SecretSafety.SecretInv(false, Run(up, s, actions))
    ensures ConnsEvolve(s.creds.conns, Run(up, s, actions).creds.conns)
    decreases |actions|
  {
    if actions != [] {
      StepKeepsInv(up, s, actions[0]);
      SecretSafety.StepKeepsInv(false, up, s, actions[0]);
      RunKeeps(up, Apply(up, s, actions[0]), actions[1..]);
    }
  }

  lemma {:induction false} Reachable(up: Upstream, actions: seq<Action>)
    ensures CredInv(Run(up, Init, actions)) && SecretSafety.SecretInv(false, Run(up, Init, actions))
  {
    RunKeeps(up, Init, actions);
  }

  /** Over every run each stored refresh token reaches the provider at most once. */
  lemma {:induction false} PresentedOnce(up: Upstream, actions: seq<Action>, i: nat, j: nat)
    requires var presented := Run(up, Init, actions).creds.presented; i < j < |presented|
    ensures var presented := Run(up, Init, actions).creds.presented; presented[i] != presented[j]
  {
    Reachable(up, actions);
  }

  /** (revision, access_epoch) names one pair of references for ever: if the pair reads the same at
      two moments of a run, nothing changed in between, not even there and back. */
  lemma {:induction false} RevisionNamesCredential(up: Upstream, before: seq<Action>, between: seq<Action>, x: Actor)
    requires var c := Run(up, Init, before).creds.conns; var d := Run(up, Run(up, Init, before), between).creds.conns;
      x in c && x in d && d[x].epoch == c[x].epoch
    ensures var c := Run(up, Init, before).creds.conns; var d := Run(up, Run(up, Init, before), between).creds.conns;
      d[x].revision == c[x].revision && d[x].access == c[x].access && d[x].refresh == c[x].refresh
  {
    Reachable(up, before);
    RunKeeps(up, Run(up, Init, before), between);
  }

  lemma AnswerOwn(s: State, pid: Pid, reply: RefreshReply)
    ensures SecretSafety.SameBut(s.procs, RefreshAnswer(s, pid, reply).procs, pid)
  {
  }

  lemma CommitOwn(s: State, pid: Pid, revision: string, accessExpires: Option<nat>, refreshExpires: Option<nat>, lost: bool)
    ensures SecretSafety.SameBut(s.procs, RefreshCommit(s, pid, revision, accessExpires, refreshExpires, lost).procs, pid)
  {
  }

  lemma ClaimOwn(s: State, pid: Pid)
    ensures SecretSafety.SameBut(s.procs, RefreshClaim(s, pid).procs, pid)
  {
  }

  lemma SendOwn(s: State, pid: Pid)
    ensures SecretSafety.SameBut(s.procs, RefreshSend(s, pid).procs, pid)
  {
  }

  lemma OwnStep(s: State, pid: Pid, a: RefreshAction)
    ensures SecretSafety.SameBut(s.procs, ApplyRefresh(s, pid, a).procs, pid)
  {
    hide RefreshClaim, RefreshSend, RefreshAnswer, RefreshCommit;
    match a {
      case DoRefreshClaim => ClaimOwn(s, pid);
      case DoRefreshSend => SendOwn(s, pid);
      case DoRefreshAnswer(reply) => AnswerOwn(s, pid, reply);
      case DoRefreshCommit(revision, accessExpires, refreshExpires, lost) =>
        CommitOwn(s, pid, revision, accessExpires, refreshExpires, lost);
      case _ =>
    }
  }

  // ---- a lost refresh ----

  /** An operation whose refresh may still replace the credential of this epoch. */
  predicate CanCommit(p: Proc, x: Actor, epoch: nat) {
    (p.RefreshClaimed? || p.RefreshSent? || p.RefreshSealed?) && p.actor == x && p.epoch == epoch
  }

  /** The connection serves nothing, and only this operation's refresh could change that. */
  ghost predicate LeftTo(s: State, x: Actor, pid: Pid) {
    && x in s.creds.conns && !Serving(s.creds.conns[x])
    && forall q | q in s.procs && q != pid :: !CanCommit(s.procs[q], x, s.creds.conns[x].epoch)
  }

  predicate StillRefreshing(s: State, x: Actor, pid: Pid) {
    x in s.creds.conns && pid in s.procs && CanCommit(s.procs[pid], x, s.creds.conns[x].epoch)
  }

  /** The connection serves nothing, and no refresh is left that could change that. */
  ghost predicate Stranded(s: State, x: Actor) {
    && x in s.creds.conns && !Serving(s.creds.conns[x])
    && forall q | q in s.procs :: !CanCommit(s.procs[q], x, s.creds.conns[x].epoch)
  }

  /** A login of this account that replaces its credential; a refused, superseded or lost one does not. */
  predicate LogsIn(s: State, a: Action, x: Actor) {
    && a.LoginStep? && a.login.DoConfirmCommit?
    && a.pid in s.procs && s.procs[a.pid].ConfirmSealed? && s.procs[a.pid].actor == x
    && ConfirmCommit(s, a.pid, a.login.grant, a.login.disabled, a.login.lost).creds != s.creds
  }

  /** A refresh of this account that replaces its credential. */
  predicate Refreshes(s: State, a: Action, x: Actor) {
    && a.RefreshStep? && a.refresh.DoRefreshCommit?
    && a.pid in s.procs && s.procs[a.pid].RefreshSealed? && s.procs[a.pid].actor == x
    && ApplyRefresh(s, a.pid, a.refresh).creds != s.creds
  }

  ghost predicate NoLogin(up: Upstream, s: State, x: Actor, actions: seq<Action>)
    decreases |actions|
  {
    actions == [] || (!LogsIn(s, actions[0], x) && NoLogin(up, Apply(up, s, actions[0]), x, actions[1..]))
  }

  /** Neither a login nor a refresh replaces the credential. */
  ghost predicate NotReplaced(up: Upstream, s: State, x: Actor, actions: seq<Action>)
    decreases |actions|
  {
    actions == []
    || (!LogsIn(s, actions[0], x) && !Refreshes(s, actions[0], x)
        && NotReplaced(up, Apply(up, s, actions[0]), x, actions[1..]))
  }

  ghost predicate StillLeft(s: State, t: State, x: Actor, pid: Pid)
    requires x in s.creds.conns
  {
    LeftTo(t, x, pid) && t.creds.conns[x].revision == s.creds.conns[x].revision
  }

  lemma OutsideLeaves(s: State, t: State, pid: Pid, x: Actor, only: Pid)
    requires LeftTo(s, x, only) && Outside(s, t, pid)
    ensures StillLeft(s, t, x, only)
  {
  }

  lemma ConfirmLeaves(s: State, pid: Pid, grant: Grant, disabled: bool, lost: bool, x: Actor, only: Pid)
    requires LeftTo(s, x, only) && !LogsIn(s, LoginStep(pid, DoConfirmCommit(grant, disabled, lost)), x)
    ensures StillLeft(s, ConfirmCommit(s, pid, grant, disabled, lost), x, only)
  {
    var t := ConfirmCommit(s, pid, grant, disabled, lost);
    if t.creds == s.creds {
      ConfirmOutside(s, pid, grant, disabled, lost);
      OutsideLeaves(s, t, pid, x, only);
    }
  }

  lemma ClaimLeaves(s: State, pid: Pid, x: Actor, only: Pid)
    requires CredInv(s) && SecretSafety.SecretInv(false, s) && LeftTo(s, x, only)
    ensures StillLeft(s, RefreshClaim(s, pid), x, only)
  {
    hide CredInv, SecretSafety.SecretInv;
    if ClaimGranted(s, pid) {
      ClaimIsFirst(s, pid);
    }
  }

  lemma SendLeaves(s: State, pid: Pid, x: Actor, only: Pid)
    requires LeftTo(s, x, only)
    ensures StillLeft(s, RefreshSend(s, pid), x, only)
  {
    if pid in s.procs && pid != only { assert !CanCommit(s.procs[pid], x, s.creds.conns[x].epoch); }
  }

  lemma GiveUpLeaves(s: State, pid: Pid, x: Actor, only: Pid)
    requires LeftTo(s, x, only)
    ensures StillLeft(s, RefreshGiveUp(s, pid), x, only)
  {
  }

  lemma AnswerLeaves(s: State, pid: Pid, reply: RefreshReply, x: Actor, only: Pid)
    requires LeftTo(s, x, only)
    ensures StillLeft(s, RefreshAnswer(s, pid, reply), x, only)
  {
    if pid in s.procs && pid != only { assert !CanCommit(s.procs[pid], x, s.creds.conns[x].epoch); }
  }

  lemma CommitLeaves(s: State, pid: Pid, revision: string, accessExpires: Option<nat>, refreshExpires: Option<nat>,
                     lost: bool, x: Actor, only: Pid)
    requires LeftTo(s, x, only)
    requires var t := RefreshCommit(s, pid, revision, accessExpires, refreshExpires, lost);
      t.creds == s.creds || (pid in s.procs && s.procs[pid].RefreshSealed? && s.procs[pid].actor != x)
    ensures StillLeft(s, RefreshCommit(s, pid, revision, accessExpires, refreshExpires, lost), x, only)
  {
    if pid in s.procs && pid != only { assert !CanCommit(s.procs[pid], x, s.creds.conns[x].epoch); }
  }

  /** The epoch that a rejection opens is nobody's: no operation has claimed it. */
  lemma NextEpochIsFree(s: State, x: Actor)
    requires CredInv(s) && x in s.creds.conns
    ensures forall q | q in s.procs :: !CanCommit(s.procs[q], x, s.creds.conns[x].epoch + 1)
  {
    forall q | q in s.procs
      ensures !CanCommit(s.procs[q], x, s.creds.conns[x].epoch + 1)
    {
      assert ProcOk(s.creds, s.procs[q]);
    }
  }

  lemma RejectLeaves(s: State, actor: Actor, revision: string, epoch: nat, x: Actor, only: Pid)
    requires CredInv(s) && LeftTo(s, x, only)
    ensures StillLeft(s, RejectCredential(s, actor, revision, epoch), x, only)
  {
    hide CredInv;
    NextEpochIsFree(s, x);
  }

  lemma RefreshLeaves(s: State, pid: Pid, a: RefreshAction, x: Actor, only: Pid)
    requires CredInv(s) && SecretSafety.SecretInv(false, s) && LeftTo(s, x, only)
    requires !Refreshes(s, RefreshStep(pid, a), x)
    ensures StillLeft(s, ApplyRefresh(s, pid, a), x, only)
  {
    hide CredInv, SecretSafety.SecretInv, RefreshClaim, RefreshSend, RefreshAnswer, RefreshCommit, RefreshGiveUp,
         RejectCredential;
    match a {
      case DoRefreshClaim => ClaimLeaves(s, pid, x, only);
      case DoRefreshSend => SendLeaves(s, pid, x, only);
      case DoRefreshGiveUp => GiveUpLeaves(s, pid, x, only);
      case DoRefreshCommit(revision, accessExpires, refreshExpires, lost) =>
        CommitElse(s, pid, revision, accessExpires, refreshExpires, lost);
        CommitLeaves(s, pid, revision, accessExpires, refreshExpires, lost, x, only);
      case DoRefreshAnswer(reply) => AnswerLeaves(s, pid, reply, x, only);
      case DoRejectCredential(actor, revision, epoch) => RejectLeaves(s, actor, revision, epoch, x, only);
      case DoCredentialRead(_) =>
    }
  }

  lemma CommitElse(s: State, pid: Pid, revision: string, accessExpires: Option<nat>, refreshExpires: Option<nat>, lost: bool)
    ensures RefreshCommit(s, pid, revision, accessExpires, refreshExpires, lost).creds == s.creds
      || (pid in s.procs && s.procs[pid].RefreshSealed?)
  {
  }

  lemma StepLeaves(up: Upstream, s: State, a: Action, x: Actor, only: Pid)
    requires CredInv(s) && SecretSafety.SecretInv(false, s) && LeftTo(s, x, only)
    requires !LogsIn(s, a, x) && !Refreshes(s, a, x)
    ensures StillLeft(s, Apply(up, s, a), x, only)
  {
    hide CredInv, SecretSafety.SecretInv, Refreshes, ApplySweep, ApplyRefresh, ApplyBatch, Outside;
    match a {
      case Tick(seconds) =>
      case Crash(pid) =>
      case LoginStep(pid, login) =>
        if login.DoConfirmCommit? {
          ConfirmLeaves(s, pid, login.grant, login.disabled, login.lost, x, only);
        } else {
          LoginOutside(s, pid, login);
          OutsideLeaves(s, ApplyLogin(s, pid, login), pid, x, only);
        }
      case SweepStepOf(pid, sweep) =>
        SweepOutside(s, pid, sweep);
        OutsideLeaves(s, ApplySweep(s, pid, sweep), pid, x, only);
      case RefreshStep(pid, refresh) => RefreshLeaves(s, pid, refresh, x, only);
      case BatchStep(pid, batch) =>
        BatchOutside(up, s, pid, batch);
        OutsideLeaves(s, ApplyBatch(up, s, pid, batch), pid, x, only);
    }
  }

  lemma {:induction false} RunLeaves(up: Upstream, s: State, x: Actor, only: Pid, actions: seq<Action>)
    requires CredInv(s) && SecretSafety.SecretInv(false, s) && LeftTo(s, x, only) && NotReplaced(up, s, x, actions)
    ensures StillLeft(s, Run(up, s, actions), x, only)
    decreases |actions|
  {
    if actions != [] {
      StepKeepsInv(up, s, actions[0]);
      SecretSafety.StepKeepsInv(false, up, s, actions[0]);
      StepLeaves(up, s, actions[0], x, only);
      RunLeaves(up, Apply(up, s, actions[0]), x, only, actions[1..]);
    }
  }

  /** In a stranded connection's account no refresh can commit, so only a login replaces the credential. */
  lemma StrandedCannotRefresh(s: State, a: Action, x: Actor)
    requires Stranded(s, x)
    ensures !Refreshes(s, a, x)
  {
    if a.RefreshStep? && a.pid in s.procs {
      assert !CanCommit(s.procs[a.pid], x, s.creds.conns[x].epoch);
    }
  }

  ghost predicate StillStranded(s: State, t: State, x: Actor)
    requires x in s.creds.conns
  {
    Stranded(t, x) && t.creds.conns[x].revision == s.creds.conns[x].revision
  }

  lemma StepLeavesStranded(up: Upstream, s: State, a: Action, x: Actor)
    requires CredInv(s) && SecretSafety.SecretInv(false, s) && Stranded(s, x) && !LogsIn(s, a, x)
    ensures StillStranded(s, Apply(up, s, a), x)
  {
    hide CredInv, SecretSafety.SecretInv, Apply, LogsIn, Refreshes;
    StrandedCannotRefresh(s, a, x);
    StepLeaves(up, s, a, x, 0);
    StepLeaves(up, s, a, x, 1);
  }

  lemma {:induction false} RunLeavesStranded(up: Upstream, s: State, x: Actor, actions: seq<Action>)
    requires CredInv(s) && SecretSafety.SecretInv(false, s) && Stranded(s, x) && NoLogin(up, s, x, actions)
    ensures StillStranded(s, Run(up, s, actions), x)
    decreases |actions|
  {
    if actions != [] {
      StepKeepsInv(up, s, actions[0]);
      SecretSafety.StepKeepsInv(false, up, s, actions[0]);
      StepLeavesStranded(up, s, actions[0], x);
      RunLeavesStranded(up, Apply(up, s, actions[0]), x, actions[1..]);
    }
  }

  /** While a refresh is under way the connection serves nothing and everything is left to this operation. */
  lemma RefreshingIsLeft(s: State, x: Actor, pid: Pid)
    requires CredInv(s) && StillRefreshing(s, x, pid)
    ensures LeftTo(s, x, pid) && s.creds.conns[x].revision == s.procs[pid].revision
  {
    assert ProcOk(s.creds, s.procs[pid]);
    forall q | q in s.procs && q != pid
      ensures !CanCommit(s.procs[q], x, s.creds.conns[x].epoch)
    {
      assert !Clash(s.procs[pid], s.procs[q]);
    }
  }

  /** As long as the credential of a claimed connection is not replaced, the connection serves nothing and keeps
      its revision; and it is stranded exactly when the claiming operation can no longer commit. */
  lemma {:induction false} ClaimSettles(up: Upstream, s: State, x: Actor, pid: Pid, actions: seq<Action>)
    requires CredInv(s) && SecretSafety.SecretInv(false, s) && StillRefreshing(s, x, pid)
    requires NotReplaced(up, s, x, actions)
    ensures var t := Run(up, s, actions);
      LeftTo(t, x, pid) && t.creds.conns[x].revision == s.procs[pid].revision
      && (Stranded(t, x) <==> !StillRefreshing(t, x, pid))
  {
    hide CredInv, SecretSafety.SecretInv;
    RefreshingIsLeft(s, x, pid);
    RunLeaves(up, s, x, pid, actions);
  }

  /** A step that ends the chance of this operation's refresh without replacing the credential. */
  ghost predicate LosesRefresh(up: Upstream, s: State, a: Action, x: Actor, pid: Pid) {
    && StillRefreshing(s, x, pid)
    && !LogsIn(s, a, x) && !Refreshes(s, a, x)
    && !StillRefreshing(Apply(up, s, a), x, pid)
  }

  /** The ways to lose a refresh: the operation dies, the stored reference cannot be opened, the provider or the
      first seal fails, the second seal fails, the commit is lost or no longer finds its claim, or anyone rejects
      the credential meanwhile. */
  predicate Refused(s: State, a: Action, x: Actor, pid: Pid)
    requires StillRefreshing(s, x, pid)
  {
    var p := s.procs[pid];
    match a
    case Crash(q) => q == pid
    case RefreshStep(_, DoRejectCredential(actor, revision, epoch)) =>
      actor == x && Holds(s.creds.conns, x, revision, epoch)
    case RefreshStep(q, DoRefreshSend) => q == pid && p.RefreshClaimed? && !Openable(s, p.refresh)
    case RefreshStep(q, DoRefreshAnswer(reply)) =>
      q == pid && p.RefreshSent?
      && (reply.RefreshError? || (Fresh(s, reply.access) && reply.renewable && reply.refresh == ""))
    case RefreshStep(q, DoRefreshCommit(_, _, _, lost)) =>
      q == pid && p.RefreshSealed? && (lost || !s.creds.conns[x].refreshState.Claimed?)
    case _ => false
  }

  lemma LoginIgnores(s: State, pid: Pid, a: LoginAction)
    requires pid in s.procs && InFlight(s.procs[pid])
    ensures ApplyLogin(s, pid, a).procs == s.procs
  {
  }

  lemma BatchIgnores(up: Upstream, s: State, pid: Pid, a: BatchAction)
    requires pid in s.procs && InFlight(s.procs[pid])
    ensures ApplyBatch(up, s, pid, a).procs == s.procs
  {
  }

  lemma SweepIgnores(s: State, pid: Pid, a: SweepAction)
    requires pid in s.procs && InFlight(s.procs[pid])
    ensures ApplySweep(s, pid, a).procs == s.procs
  {
  }

  lemma LoginStill(s: State, q: Pid, a: LoginAction, x: Actor, pid: Pid)
    requires StillRefreshing(s, x, pid) && !LogsIn(s, LoginStep(q, a), x)
    ensures StillRefreshing(ApplyLogin(s, q, a), x, pid)
  {
    hide Outside, Apply;
    if a.DoConfirmCommit? {
      ConfirmStill(s, q, a.grant, a.disabled, a.lost, x, pid);
    } else {
      LoginOutside(s, q, a);
      if q == pid {
        LoginIgnores(s, q, a);
      }
      hide ApplyLogin, StillRefreshing;
      OutsideStill(s, ApplyLogin(s, q, a), q, x, pid);
    }
  }

  lemma OutsideStill(s: State, t: State, q: Pid, x: Actor, pid: Pid)
    requires StillRefreshing(s, x, pid) && Outside(s, t, q) && (q == pid ==> t.procs == s.procs)
    ensures StillRefreshing(t, x, pid)
  {
  }

  lemma ConfirmStill(s: State, q: Pid, grant: Grant, disabled: bool, lost: bool, x: Actor, pid: Pid)
    requires StillRefreshing(s, x, pid) && !LogsIn(s, LoginStep(q, DoConfirmCommit(grant, disabled, lost)), x)
    ensures StillRefreshing(ConfirmCommit(s, q, grant, disabled, lost), x, pid)
  {
    if q in s.procs && s.procs[q].ConfirmSealed? {
      assert q != pid;
    }
  }

  /** Another operation's refresh step leaves this one's chance alone, short of a rejection. */
  lemma OtherStill(s: State, q: Pid, a: RefreshAction, x: Actor, pid: Pid)
    requires CredInv(s) && StillRefreshing(s, x, pid) && q != pid && !Refreshes(s, RefreshStep(q, a), x)
    requires !a.DoRejectCredential? || a.actor != x || !Holds(s.creds.conns, x, a.revision, a.epoch)
    ensures StillRefreshing(ApplyRefresh(s, q, a), x, pid)
  {
    OwnStep(s, q, a);
    hide SecretSafety.SameBut;
    OtherKeepsEpoch(s, q, a, x);
  }

  lemma OtherKeepsEpoch(s: State, q: Pid, a: RefreshAction, x: Actor)
    requires x in s.creds.conns && !Refreshes(s, RefreshStep(q, a), x)
    requires !a.DoRejectCredential? || a.actor != x || !Holds(s.creds.conns, x, a.revision, a.epoch)
    ensures var t := ApplyRefresh(s, q, a); x in t.creds.conns && t.creds.conns[x].epoch == s.creds.conns[x].epoch
  {
  }

  /** The operation's own steps: it goes on, or the step is one of the refusals. */
  lemma OwnRefusal(s: State, a: RefreshAction, x: Actor, pid: Pid)
    requires CredInv(s) && "" !in s.creds.versions && StillRefreshing(s, x, pid)
    requires !Refreshes(s, RefreshStep(pid, a), x)
    ensures Refused(s, RefreshStep(pid, a), x, pid) <==> !StillRefreshing(ApplyRefresh(s, pid, a), x, pid)
  {
    hide CredInv;
    ProcIs(s, pid);
  }

  lemma RejectLoses(s: State, q: Pid, revision: string, epoch: nat, x: Actor, pid: Pid)
    requires StillRefreshing(s, x, pid) && Holds(s.creds.conns, x, revision, epoch)
    ensures !StillRefreshing(ApplyRefresh(s, q, DoRejectCredential(x, revision, epoch)), x, pid)
  {
  }

  /** Exactly the refusals lose a refresh. */
  lemma {:induction false} RefusalsLoseRefresh(up: Upstream, s: State, a: Action, x: Actor, pid: Pid)
    requires CredInv(s) && SecretSafety.SecretInv(false, s) && StillRefreshing(s, x, pid)
    ensures LosesRefresh(up, s, a, x, pid) <==> Refused(s, a, x, pid) && !Refreshes(s, a, x)
  {
    SecretSafety.ProcIsOk(false, s, pid);
    hide CredInv, SecretSafety.SecretInv, SecretSafety.ProcOk, Outside, ApplyLogin, ApplySweep, ApplyBatch, ApplyRefresh;
    match a {
      case Tick(_) =>
      case Crash(q) =>
      case LoginStep(q, login) =>
        if !LogsIn(s, a, x) { LoginStill(s, q, login, x, pid); }
      case SweepStepOf(q, sweep) =>
        SweepOutside(s, q, sweep);
        if q == pid { SweepIgnores(s, q, sweep); }
        OutsideStill(s, ApplySweep(s, q, sweep), q, x, pid);
      case BatchStep(q, batch) =>
        BatchOutside(up, s, q, batch);
        if q == pid { BatchIgnores(up, s, q, batch); }
        OutsideStill(s, ApplyBatch(up, s, q, batch), q, x, pid);
      case RefreshStep(q, refresh) =>
        if !Refreshes(s, a, x) {
          if q == pid {
            OwnRefusal(s, refresh, x, pid);
          } else if Refused(s, a, x, pid) {
            RejectLoses(s, q, refresh.revision, refresh.epoch, x, pid);
          } else {
            OtherStill(s, q, refresh, x, pid);
          }
        }
    }
  }

  lemma {:induction false} LostIsStranded(up: Upstream, s: State, a: Action, x: Actor, pid: Pid)
    requires CredInv(s) && SecretSafety.SecretInv(false, s) && LosesRefresh(up, s, a, x, pid)
    ensures StillStranded(s, Apply(up, s, a), x)
  {
    hide CredInv, SecretSafety.SecretInv, Apply, LogsIn, Refreshes;
    RefreshingIsLeft(s, x, pid);
    StepLeaves(up, s, a, x, pid);
  }

  /** Once a claimed refresh can no longer commit, however that came about and whatever happened in between, the
      connection serves no credential in any continuation until a login of that account replaces it. */
  lemma {:induction false} LostRefreshServesNothing(up: Upstream, before: seq<Action>, x: Actor, pid: Pid,
                                                    between: seq<Action>, later: seq<Action>)
    requires var s := Run(up, Init, before); StillRefreshing(s, x, pid) && NotReplaced(up, s, x, between)
    requires var t := Run(up, Run(up, Init, before), between); !StillRefreshing(t, x, pid) && NoLogin(up, t, x, later)
    ensures var conns := Run(up, Run(up, Run(up, Init, before), between), later).creds.conns;
      x in conns && !Serving(conns[x]) && conns[x].revision == Run(up, Init, before).procs[pid].revision
  {
    var s := Run(up, Init, before);
    Reachable(up, before);
    ClaimSettles(up, s, x, pid, between);
    RunKeeps(up, s, between);
    RunLeavesStranded(up, Run(up, s, between), x, later);
  }

  /** A rejection strands the connection, whatever refresh is in flight. */
  lemma RejectStrands(s: State, x: Actor, revision: string, epoch: nat)
    requires CredInv(s) && Holds(s.creds.conns, x, revision, epoch)
    ensures StillStranded(s, RejectCredential(s, x, revision, epoch), x)
  {
    hide CredInv;
    NextEpochIsFree(s, x);
  }

  /** A rejected credential of the current pair is never served again, nor any other before the next login. */
  lemma {:induction false} RejectedServesNothing(up: Upstream, before: seq<Action>, pid: Pid, x: Actor, revision: string,
                                                 epoch: nat, later: seq<Action>)
    requires Holds(Run(up, Init, before).creds.conns, x, revision, epoch)
    requires NoLogin(up, Apply(up, Run(up, Init, before), RefreshStep(pid, DoRejectCredential(x, revision, epoch))), x, later)
    ensures var s := Run(up, Init, before); var a := RefreshStep(pid, DoRejectCredential(x, revision, epoch));
      var conns := Run(up, Apply(up, s, a), later).creds.conns;
      x in conns && !Serving(conns[x]) && conns[x].revision == revision
  {
    var s, a := Run(up, Init, before), RefreshStep(pid, DoRejectCredential(x, revision, epoch));
    Reachable(up, before);
    RejectStrands(s, x, revision, epoch);
    StepKeepsInv(up, s, a);
    SecretSafety.StepKeepsInv(false, up, s, a);
    RunLeavesStranded(up, Apply(up, s, a), x, later);
  }
}
