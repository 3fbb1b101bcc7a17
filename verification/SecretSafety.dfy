/** No live secret is destroyed, under any mix of discard, cleanOrphans and maintain. The argument
    is that a version listed for destruction is `Doomed`: nothing refers to it as live, and no
    operation is left that could still store it in time. Doomed versions stay doomed. */
module SecretSafety {
  import opened AccessModel
  import opened Text

  type Attempts = map<AttemptKey, Attempt>
  type Conns = map<Actor, Connection>
  type Versions = map<Ref, Version>
  type Procs = map<Pid, Proc>

  /** A secret some later step still has to open: the material of a pending or exchanging attempt,
      the tokens of an attempt awaiting its identity, both references of a connection. */
  ghost predicate LiveSecret(s: State, ref: Ref) {
    || (exists k :: k in s.login.attempts && NeedsMaterial(s.login.attempts[k], ref))
    || (exists k :: k in s.login.attempts && NeedsToken(s.login.attempts[k], ref))
    || (exists a :: a in s.creds.conns && ref != "" && (s.creds.conns[a].access == ref || s.creds.conns[a].refresh == ref))
  }

  predicate NeedsMaterial(row: Attempt, ref: Ref) {
    ref != "" && row.material == ref && (row.state.Pending? || row.state.Exchanging?)
  }

  predicate NeedsToken(row: Attempt, ref: Ref) {
    ref != "" && row.token == ref && row.state.IdentityPending?
  }

  /** The references an operation sealed and may still store. */
  function Held(p: Proc): set<Ref> {
    match p
    case StartSealed(_, _, _, material, _) => {material}
    case TokenSealed(_, token, _) => {token}
    case ConfirmSealed(_, _, access, refresh) => {access, refresh} - {""}
    case RefreshSealed(_, _, _, access, refresh) => {access, refresh} - {""}
    case _ => {}
  }

  predicate Owned(v: Versions, ref: Ref, owner: Owner) {
    ref in v && v[ref].owner == owner
  }

  /** The one column that may hold the version does not hold it as a live secret, now or later. */
  predicate SlotClosed(a: Attempts, c: Conns, ref: Ref, owner: Owner) {
    match owner
    case AttemptMaterial(k) => k in a && a[k].material == ref ==> !a[k].state.Pending? && !a[k].state.Exchanging?
    case AttemptToken(k) =>
      k in a && a[k].token == ref ==> !a[k].state.Pending? && !a[k].state.Exchanging? && !a[k].state.IdentityPending?
    case UserToken(x) => x in c ==> c[x].access != ref
    case RefreshToken(x) => x in c ==> c[x].refresh != ref
  }

  ghost predicate TooLate(v: Versions, procs: Procs, now: nat, ref: Ref)
    requires ref in v
  {
    forall pid {:trigger Held(procs[pid])} | pid in procs && ref in Held(procs[pid]) :: v[ref].createdAt + ORPHAN_AGE < now
  }

  /** No use of the version is left. Only timely runs promise this, so `timely` guards the whole claim. */
  ghost predicate Doomed(timely: bool, s: State, ref: Ref) {
    timely ==>
      && ref in s.creds.versions
      && SlotClosed(s.login.attempts, s.creds.conns, ref, s.creds.versions[ref].owner)
      && TooLate(s.creds.versions, s.procs, s.now, ref)
  }

  // ---- the invariant ----

  predicate AttemptRefs(v: Versions, k: AttemptKey, row: Attempt) {
    && (row.material != "" ==> Owned(v, row.material, AttemptMaterial(k)))
    && (row.token != "" ==> Owned(v, row.token, AttemptToken(k)))
    && (row.state.Pending? || row.state.Exchanging? ==> row.token == "")
  }

  predicate ConnRefs(v: Versions, x: Actor, c: Connection) {
    && Owned(v, c.access, UserToken(x))
    && (c.refresh != "" ==> Owned(v, c.refresh, RefreshToken(x)))
  }

  /** A version held for storing: of the right owner, sealed by this operation, not stored yet. */
  predicate Holding(s: State, pid: Pid, ref: Ref, owner: Owner) {
    && Owned(s.creds.versions, ref, owner)
    && s.creds.versions[ref].sealer == pid
    && match owner
       case AttemptMaterial(k) => k in s.login.attempts ==> s.login.attempts[k].material != ref
       case AttemptToken(k) => k in s.login.attempts ==> s.login.attempts[k].token != ref
       case UserToken(x) => x in s.creds.conns ==> s.creds.conns[x].access != ref
       case RefreshToken(x) => x in s.creds.conns ==> s.creds.conns[x].refresh != ref
  }

  ghost predicate ProcOk(timely: bool, s: State, pid: Pid, p: Proc) {
    match p
    case StartSealed(key, _, _, material, _) => Holding(s, pid, material, AttemptMaterial(key))
    case TokenSealed(key, token, _) => Holding(s, pid, token, AttemptToken(key))
    case ConfirmSealed(_, actor, access, refresh) =>
      && Holding(s, pid, access, UserToken(actor))
      && (refresh != "" ==> Holding(s, pid, refresh, RefreshToken(actor)))
    case RefreshSealed(actor, _, _, access, refresh) =>
      && Holding(s, pid, access, UserToken(actor))
      && (refresh != "" ==> Holding(s, pid, refresh, RefreshToken(actor)))
    case RefreshFailed(_, _, _, leftovers) => forall r | r in leftovers :: Doomed(timely, s, r)
    case Sweep(ops) => forall op | op in ops && op.Destroy? :: Doomed(timely, s, op.ref)
    case _ => true
  }

  ghost predicate AttemptsRefs(v: Versions, a: Attempts) {
    forall k {:trigger AttemptRefs(v, k, a[k])} | k in a :: AttemptRefs(v, k, a[k])
  }

  ghost predicate ConnsRefs(v: Versions, c: Conns) {
    forall x {:trigger ConnRefs(v, x, c[x])} | x in c :: ConnRefs(v, x, c[x])
  }

  ghost predicate ProcsOk(timely: bool, s: State) {
    forall pid {:trigger ProcOk(timely, s, pid, s.procs[pid])} | pid in s.procs :: ProcOk(timely, s, pid, s.procs[pid])
  }

  ghost predicate DestroyedDoomed(timely: bool, s: State) {
    forall r {:trigger Doomed(timely, s, r)} | r in s.creds.versions && s.creds.versions[r].destroyed :: Doomed(timely, s, r)
  }

  /** Ownership holds in every run; that only doomed versions are destroyed or listed needs timely runs. */
  ghost predicate SecretInv(timely: bool, s: State) {
    && "" !in s.creds.versions
    && AttemptsRefs(s.creds.versions, s.login.attempts)
    && ConnsRefs(s.creds.versions, s.creds.conns)
    && ProcsOk(timely, s)
    && DestroyedDoomed(timely, s)
  }

  /** The timing assumption on one step: what an operation held and a column shows afterwards was sealed at
      most 15 minutes ago. */
  ghost predicate StoresInTime(s: State, t: State) {
    forall q, r {:trigger r in Held(s.procs[q])} | q in s.procs && r in Held(s.procs[q]) && Referenced(t, r) :: InTime(s, r)
  }

  ghost predicate TimelyRun(up: Upstream, s: State, actions: seq<Action>)
    decreases |actions|
  {
    actions == []
    || (StoresInTime(s, Apply(up, s, actions[0])) && TimelyRun(up, Apply(up, s, actions[0]), actions[1..]))
  }

  // ---- what a step may do to the columns ----

  predicate AttemptMoves(before: Attempt, row: Attempt) {
    && (row.material == before.material || row.material == "")
    && (row.token == before.token || row.token == "")
    && (row.state.Pending? ==> before.state.Pending?)
    && (row.state.Exchanging? ==> before.state.Pending? || before.state.Exchanging?)
    && (row.state.IdentityPending? ==> before.state.IdentityPending?)
  }

  /** Every attempt column is unchanged, cleared, closed further, or holds a version stored now. */
  ghost predicate AttemptsMove(v: Versions, a: Attempts, a': Attempts, stored: set<Ref>) {
    forall k | k in a' ::
      || (k in a && AttemptMoves(a[k], a'[k]))
      || (a'[k].material in stored && Owned(v, a'[k].material, AttemptMaterial(k)) && a'[k].token == "")
      || (k in a && a'[k].token in stored && Owned(v, a'[k].token, AttemptToken(k)) && a'[k].material == a[k].material
          && a[k].state.Exchanging? && a'[k].state.IdentityPending?)
  }

  ghost predicate ConnsMove(v: Versions, c: Conns, c': Conns, stored: set<Ref>) {
    forall x | x in c' ::
      || (x in c && c'[x].access == c[x].access && c'[x].refresh == c[x].refresh)
      || (c'[x].access in stored && ConnRefs(v, x, c'[x]) && (c'[x].refresh == "" || c'[x].refresh in stored))
  }

  ghost predicate VersionsGrow(v: Versions, v': Versions) {
    forall r | r in v :: r in v' && v'[r].(destroyed := v[r].destroyed) == v[r]
  }

  /** What the operation `pid` stores it held, and in time. */
  predicate StoredInTime(timely: bool, s: State, pid: Pid, stored: set<Ref>) {
    stored != {} ==>
      && pid in s.procs && stored <= Held(s.procs[pid])
      && (timely ==> forall r | r in stored :: InTime(s, r))
  }

  ghost predicate SameBut(procs: Procs, procs': Procs, pid: Pid) {
    forall q | q != pid :: (q in procs' <==> q in procs) && (q in procs ==> procs'[q] == procs[q])
  }

  /** One step of operation `pid`, storing `stored`. */
  ghost predicate Moves(timely: bool, s: State, t: State, pid: Pid, stored: set<Ref>) {
    && s.now <= t.now
    && AttemptsMove(s.creds.versions, s.login.attempts, t.login.attempts, stored)
    && ConnsMove(s.creds.versions, s.creds.conns, t.creds.conns, stored)
    && VersionsGrow(s.creds.versions, t.creds.versions)
    && StoredInTime(timely, s, pid, stored)
    && SameBut(s.procs, t.procs, pid)
    && (pid in t.procs ==>
          forall r | r in Held(t.procs[pid]) :: r !in s.creds.versions || (pid in s.procs && r in Held(s.procs[pid])))
  }

  lemma DoomedStays(timely: bool, s: State, t: State, pid: Pid, stored: set<Ref>, r: Ref)
    requires Moves(timely, s, t, pid, stored) && Doomed(timely, s, r) && "" !in s.creds.versions
    ensures Doomed(timely, t, r)
  {
    if timely {
      assert r !in stored;
      forall q | q in t.procs && r in Held(t.procs[q])
        ensures t.creds.versions[r].createdAt + ORPHAN_AGE < t.now
      {
        if q != pid {
        }
      }
    }
  }

  lemma HoldingStays(timely: bool, s: State, t: State, pid: Pid, stored: set<Ref>, q: Pid, r: Ref, owner: Owner)
    requires Moves(timely, s, t, pid, stored) && Holding(s, q, r, owner) && r !in stored && r != ""
    ensures Holding(t, q, r, owner)
  {
  }

  lemma RefsStay(timely: bool, s: State, t: State, pid: Pid, stored: set<Ref>)
    requires SecretInv(timely, s) && Moves(timely, s, t, pid, stored)
    ensures AttemptsRefs(t.creds.versions, t.login.attempts) && ConnsRefs(t.creds.versions, t.creds.conns)
  {
    forall k | k in t.login.attempts ensures AttemptRefs(t.creds.versions, k, t.login.attempts[k]) {
      assert k in s.login.attempts ==> AttemptRefs(s.creds.versions, k, s.login.attempts[k]);
    }
    forall x | x in t.creds.conns ensures ConnRefs(t.creds.versions, x, t.creds.conns[x]) {
      assert x in s.creds.conns ==> ConnRefs(s.creds.versions, x, s.creds.conns[x]);
    }
  }

  /** What an operation holds it sealed itself, so two operations hold nothing in common. */
  lemma HeldIsOwn(timely: bool, s: State, pid: Pid, r: Ref)
    requires SecretInv(timely, s) && pid in s.procs && r in Held(s.procs[pid])
    ensures r in s.creds.versions && s.creds.versions[r].sealer == pid
  {
    assert ProcOk(timely, s, pid, s.procs[pid]);
  }

  lemma OthersStay(timely: bool, s: State, t: State, pid: Pid, stored: set<Ref>, q: Pid, p: Proc)
    requires SecretInv(timely, s) && Moves(timely, s, t, pid, stored) && (q != pid || stored == {}) && q in s.procs && s.procs[q] == p
    ensures ProcOk(timely, t, q, p)
  {
    assert ProcOk(timely, s, q, p);
    forall r, owner | Holding(s, q, r, owner) ensures Holding(t, q, r, owner) {
      if r in stored {
        HeldIsOwn(timely, s, pid, r);
      }
      HoldingStays(timely, s, t, pid, stored, q, r, owner);
    }
    forall r | Doomed(timely, s, r) ensures Doomed(timely, t, r) {
      DoomedStays(timely, s, t, pid, stored, r);
    }
  }

  lemma MovesKeep(timely: bool, s: State, t: State, pid: Pid, stored: set<Ref>)
    requires SecretInv(timely, s) && Moves(timely, s, t, pid, stored)
    requires "" !in t.creds.versions
    requires pid in t.procs ==> (t.procs == s.procs && stored == {}) || ProcOk(timely, t, pid, t.procs[pid])
    requires forall r | r in t.creds.versions && t.creds.versions[r].destroyed ::
      (r in s.creds.versions && s.creds.versions[r].destroyed) || Doomed(timely, s, r)
    ensures SecretInv(timely, t)
  {
    RefsStay(timely, s, t, pid, stored);
    forall q | q in t.procs ensures ProcOk(timely, t, q, t.procs[q]) {
      if t.procs == s.procs && stored == {} {
        OthersStay(timely, s, t, pid, stored, q, t.procs[q]);
      } else if q != pid {
        OthersStay(timely, s, t, pid, stored, q, t.procs[q]);
      }
    }
    forall r | r in t.creds.versions && t.creds.versions[r].destroyed ensures Doomed(timely, t, r) {
      assert Doomed(timely, s, r);
      DoomedStays(timely, s, t, pid, stored, r);
    }
  }

  // ---- seals and discards ----

  /** No column holds a version that was not sealed yet. */
  lemma FreshUnused(timely: bool, s: State, r: Ref)
    requires SecretInv(timely, s) && Fresh(s, r)
    ensures forall k | k in s.login.attempts :: s.login.attempts[k].material != r && s.login.attempts[k].token != r
    ensures forall x | x in s.creds.conns :: s.creds.conns[x].access != r && s.creds.conns[x].refresh != r
    ensures forall q | q in s.procs :: r !in Held(s.procs[q])
  {
    forall k | k in s.login.attempts ensures s.login.attempts[k].material != r && s.login.attempts[k].token != r {
      assert AttemptRefs(s.creds.versions, k, s.login.attempts[k]);
    }
    forall x | x in s.creds.conns ensures s.creds.conns[x].access != r && s.creds.conns[x].refresh != r {
      assert ConnRefs(s.creds.versions, x, s.creds.conns[x]);
    }
    forall q | q in s.procs ensures r !in Held(s.procs[q]) {
      assert ProcOk(timely, s, q, s.procs[q]);
    }
  }

  /** A version the operation held and lets go without storing it. */
  lemma ReleasedIsDoomed(timely: bool, s: State, t: State, pid: Pid, r: Ref)
    requires SecretInv(timely, s) && Moves(timely, s, t, pid, {}) && pid in s.procs && r in Held(s.procs[pid])
    requires pid in t.procs && Held(t.procs[pid]) == {}
    ensures Doomed(timely, t, r)
  {
    HeldIsOwn(timely, s, pid, r);
    assert ProcOk(timely, s, pid, s.procs[pid]);
    HoldingStays(timely, s, t, pid, {}, pid, r, s.creds.versions[r].owner);
    forall q | q in t.procs && r in Held(t.procs[q]) ensures false {
      HeldIsOwn(timely, s, q, r);
    }
  }

  lemma {:induction false} DiscardsMembers(refs: seq<Ref>, op: SweepOp)
    requires op in Discards(refs)
    ensures op.Destroy? && op.ref in refs && op.ref != ""
    decreases |refs|
  {
    if op in Discards(refs[1..]) {
      DiscardsMembers(refs[1..], op);
    }
  }

  /** An operation that holds no version and destroys none. */
  predicate Plain(p: Proc) {
    && !p.StartSealed? && !p.TokenSealed? && !p.ConfirmSealed? && !p.RefreshSealed?
    && !p.RefreshFailed? && !p.Sweep?
  }

  // ---- the building blocks of a step ----

  lemma ProcIsOk(timely: bool, s: State, pid: Pid)
    requires SecretInv(timely, s) && pid in s.procs
    ensures ProcOk(timely, s, pid, s.procs[pid]) && "" !in s.creds.versions
  {
    assert ProcOk(timely, s, pid, s.procs[pid]);
  }

  lemma PlainIsOk(timely: bool, s: State, pid: Pid, p: Proc)
    requires Plain(p)
    ensures ProcOk(timely, s, pid, p)
  {
  }

  /** A step that destroys nothing. */
  lemma QuietKeeps(timely: bool, s: State, t: State, pid: Pid, stored: set<Ref>)
    requires SecretInv(timely, s) && Moves(timely, s, t, pid, stored) && t.creds.versions == s.creds.versions
    requires pid in t.procs ==> ProcOk(timely, t, pid, t.procs[pid])
    ensures SecretInv(timely, t)
  {
    MovesKeep(timely, s, t, pid, stored);
  }

  lemma EndKeeps(timely: bool, s: State, pid: Pid)
    requires SecretInv(timely, s)
    ensures SecretInv(timely, End(s, pid))
  {
    MovesKeep(timely, s, End(s, pid), pid, {});
  }

  lemma PutKeeps(timely: bool, s: State, pid: Pid, p: Proc)
    requires SecretInv(timely, s) && Plain(p)
    ensures SecretInv(timely, Put(s, pid, p))
  {
    MovesKeep(timely, s, Put(s, pid, p), pid, {});
  }

  lemma DiscardKeeps(timely: bool, s: State, pid: Pid, refs: seq<Ref>)
    requires SecretInv(timely, s) && pid in s.procs && (forall r | r in refs && r != "" :: r in Held(s.procs[pid]))
    ensures SecretInv(timely, Discard(s, pid, refs))
  {
    var t := Discard(s, pid, refs);
    forall op | op in Discards(refs) && op.Destroy? ensures Doomed(timely, t, op.ref) {
      DiscardsMembers(refs, op);
      ReleasedIsDoomed(timely, s, t, pid, op.ref);
    }
    MovesKeep(timely, s, t, pid, {});
  }

  /** An operation may start or go on to destroy whatever is doomed. */
  lemma SweepKeeps(timely: bool, s: State, pid: Pid, ops: seq<SweepOp>)
    requires SecretInv(timely, s) && forall op | op in ops && op.Destroy? :: Doomed(timely, s, op.ref)
    ensures SecretInv(timely, Put(s, pid, Sweep(ops)))
    ensures forall op | op in ops && op.Destroy? :: Doomed(timely, Put(s, pid, Sweep(ops)), op.ref)
  {
    var t := Put(s, pid, Sweep(ops));
    forall op | op in ops && op.Destroy? ensures Doomed(timely, t, op.ref) {
      DoomedStays(timely, s, t, pid, {}, op.ref);
    }
    MovesKeep(timely, s, t, pid, {});
  }

  lemma BatchesKeep(timely: bool, s: State, batches: map<string, Batch>)
    requires SecretInv(timely, s)
    ensures SecretInv(timely, s.(batches := batches))
  {
    MovesKeep(timely, s, s.(batches := batches), 0, {});
  }

  lemma RowKeeps(timely: bool, s: State, key: AttemptKey, row: Attempt)
    requires SecretInv(timely, s) && key in s.login.attempts && AttemptMoves(s.login.attempts[key], row)
    ensures SecretInv(timely, SetAttempt(s, key, row))
  {
    MovesKeep(timely, s, SetAttempt(s, key, row), 0, {});
  }

  lemma ConnKeeps(timely: bool, s: State, x: Actor, c: Connection)
    requires SecretInv(timely, s) && x in s.creds.conns
    requires c.access == s.creds.conns[x].access && c.refresh == s.creds.conns[x].refresh
    ensures SecretInv(timely, SetConnection(s, x, c))
  {
    MovesKeep(timely, s, SetConnection(s, x, c), 0, {});
  }

  lemma LoginKeeps(timely: bool, s: State, l: Logins)
    requires SecretInv(timely, s) && AttemptsMove(s.creds.versions, s.login.attempts, l.attempts, {})
    ensures SecretInv(timely, s.(login := l))
  {
    MovesKeep(timely, s, s.(login := l), 0, {});
  }

  /** A step that seals fresh versions and changes nothing else but the operation. */
  ghost predicate Seals(s: State, t: State, pid: Pid, sealed: set<Ref>) {
    && t.now == s.now && t.login == s.login && t.creds.conns == s.creds.conns
    && SameBut(s.procs, t.procs, pid) && pid in t.procs && Held(t.procs[pid]) <= sealed
    && (forall r | r in sealed :: Fresh(s, r) && r in t.creds.versions)
    && t.creds.versions.Keys == s.creds.versions.Keys + sealed
    && (forall r | r in s.creds.versions :: t.creds.versions[r] == s.creds.versions[r])
    && (forall r | r in sealed :: t.creds.versions[r].sealer == pid && !t.creds.versions[r].destroyed)
  }

  lemma OneSealed(s: State, pid: Pid, ref: Ref, owner: Owner, p: Proc)
    requires Fresh(s, ref) && Held(p) <= {ref}
    ensures Seals(s, Put(Seal(s, ref, owner, pid), pid, p), pid, {ref})
  {
  }

  lemma TwoSealed(s: State, pid: Pid, access: Ref, refresh: Ref, actor: Actor, p: Proc)
    requires Fresh(s, access) && Fresh(s, refresh) && access != refresh && Held(p) <= {access, refresh}
    ensures var sealed := Seal(s, access, UserToken(actor), pid);
      Seals(s, Put(Seal(sealed, refresh, RefreshToken(actor), pid), pid, p), pid, {access, refresh})
  {
  }

  lemma SealsMove(timely: bool, s: State, t: State, pid: Pid, sealed: set<Ref>)
    requires Seals(s, t, pid, sealed)
    ensures Moves(timely, s, t, pid, {})
  {
  }

  lemma SealedIsLoose(timely: bool, s: State, t: State, pid: Pid, sealed: set<Ref>, r: Ref)
    requires SecretInv(timely, s) && Seals(s, t, pid, sealed) && r in sealed
    ensures Holding(t, pid, r, t.creds.versions[r].owner)
    ensures Held(t.procs[pid]) == {} ==> Doomed(timely, t, r)
  {
    FreshUnused(timely, s, r);
    forall q | q in t.procs && q != pid ensures r !in Held(t.procs[q]) {
    }
  }

  /** One token sealed: it is held, or it is already on its way to destruction. */
  lemma OneSealedKeeps(timely: bool, s: State, t: State, pid: Pid, actor: Actor, access: Ref)
    requires SecretInv(timely, s) && Seals(s, t, pid, {access}) && t.creds.versions[access].owner == UserToken(actor)
    requires match t.procs[pid]
      case ConfirmSealed(_, x, a, r) => x == actor && a == access && r == ""
      case RefreshSealed(x, _, _, a, r) => x == actor && a == access && r == ""
      case RefreshFailed(_, _, _, leftovers) => leftovers == [access]
      case Sweep(ops) => ops == Discards([access])
      case _ => false
    ensures SecretInv(timely, t)
  {
    SealsMove(timely, s, t, pid, {access});
    SealedIsLoose(timely, s, t, pid, {access}, access);
    forall op | op in Discards([access]) ensures op == Destroy(access) {
      DiscardsMembers([access], op);
    }
    MovesKeep(timely, s, t, pid, {});
  }

  lemma TwoSealedKeeps(timely: bool, s: State, t: State, pid: Pid, actor: Actor, access: Ref, refresh: Ref)
    requires SecretInv(timely, s) && Seals(s, t, pid, {access, refresh})
    requires t.creds.versions[access].owner == UserToken(actor) && t.creds.versions[refresh].owner == RefreshToken(actor)
    requires match t.procs[pid]
      case ConfirmSealed(_, x, a, r) => x == actor && a == access && r == refresh
      case RefreshSealed(x, _, _, a, r) => x == actor && a == access && r == refresh
      case _ => false
    ensures SecretInv(timely, t)
  {
    SealsMove(timely, s, t, pid, {access, refresh});
    SealedIsLoose(timely, s, t, pid, {access, refresh}, access);
    SealedIsLoose(timely, s, t, pid, {access, refresh}, refresh);
    MovesKeep(timely, s, t, pid, {});
  }

  // ---- the login steps ----

  lemma StartSealKeeps(timely: bool, s: State, pid: Pid, key: AttemptKey, purpose: Purpose, session: Option<string>, ref: Ref)
    requires SecretInv(timely, s)
    ensures SecretInv(timely, StartSeal(s, pid, key, purpose, session, ref))
  {
    var t := StartSeal(s, pid, key, purpose, session, ref);
    if t != s {
      SealsMove(timely, s, t, pid, {ref});
      SealedIsLoose(timely, s, t, pid, {ref}, ref);
      MovesKeep(timely, s, t, pid, {});
    }
  }

  lemma StartedMove(v: Versions, a: Attempts, key: AttemptKey, row: Attempt, stored: set<Ref>)
    requires row.material in stored && Owned(v, row.material, AttemptMaterial(key)) && row.token == ""
    ensures AttemptsMove(v, a, SupersedeLive(a, key.binding, None)[key := row], stored)
  {
  }

  lemma StartMoves(timely: bool, s: State, pid: Pid, t: State)
    requires SecretInv(timely, s) && pid in s.procs && s.procs[pid].StartSealed? && StartAllowed(s, s.procs[pid])
    requires t == StartCommit(s, pid, false) && (timely ==> StoresInTime(s, t))
    ensures Moves(timely, s, t, pid, {s.procs[pid].material})
  {
    hide SecretInv, StartAllowed, StartBinding, ReconnectAllowed, AttemptsMove;
    var p, v := s.procs[pid], s.creds.versions;
    ProcIsOk(timely, s, pid);
    StartedMove(v, s.login.attempts, p.key, t.login.attempts[p.key], {p.material});
    assert Referenced(t, p.material) by { assert t.login.attempts[p.key].material == p.material; }
    WasInTime(timely, s, t, pid, p.material);
  }

  lemma StartCommitKeeps(timely: bool, s: State, pid: Pid, lost: bool)
    requires SecretInv(timely, s)
    requires timely ==> StoresInTime(s, StartCommit(s, pid, lost))
    ensures SecretInv(timely, StartCommit(s, pid, lost))
  {
    hide SecretInv, ProcOk, Moves;
    var t := StartCommit(s, pid, lost);
    if t != s {
      var p := s.procs[pid];
      if !StartAllowed(s, p) {
        ProcIsOk(timely, s, pid);
        DiscardKeeps(timely, s, pid, [p.material]);
      } else if lost {
        EndKeeps(timely, s, pid);
      } else {
        StartMoves(timely, s, pid, t);
        QuietKeeps(timely, s, t, pid, {p.material});
      }
    }
  }

  lemma CallbackKeeps(timely: bool, s: State, pid: Pid, key: AttemptKey, code: CodeReply)
    requires SecretInv(timely, s)
    ensures SecretInv(timely, CallbackBegin(s, pid, key, code))
  {
    var t := CallbackBegin(s, pid, key, code);
    if t != s {
      var row := t.login.attempts[key];
      RowKeeps(timely, s, key, row);
      PutKeeps(timely, SetAttempt(s, key, row), pid, Exchange(key, row.material));
    }
  }

  lemma ExchangeKeeps(timely: bool, s: State, pid: Pid, reply: ExchangeReply)
    requires SecretInv(timely, s)
    ensures SecretInv(timely, CallbackExchange(s, pid, reply))
  {
    var t := CallbackExchange(s, pid, reply);
    if t != s {
      if t.procs[pid].TokenSealed? {
        SealsMove(timely, s, t, pid, {reply.ref});
        SealedIsLoose(timely, s, t, pid, {reply.ref}, reply.ref);
        MovesKeep(timely, s, t, pid, {});
      } else {
        PutKeeps(timely, s, pid, t.procs[pid]);
      }
    }
  }

  lemma MarkUnknownKeeps(timely: bool, s: State, pid: Pid)
    requires SecretInv(timely, s)
    ensures SecretInv(timely, MarkUnknown(s, pid))
  {
    EndKeeps(timely, s, pid);
    if MarkUnknown(s, pid).login != s.login {
      var key := s.procs[pid].key;
      RowKeeps(timely, End(s, pid), key, s.login.attempts[key].(state := Unknown));
    }
  }

  lemma RejectAttemptKeeps(timely: bool, s: State, pid: Pid)
    requires SecretInv(timely, s)
    ensures SecretInv(timely, RejectAttempt(s, pid))
  {
    EndKeeps(timely, s, pid);
    if RejectAttempt(s, pid).login != s.login {
      var key := s.procs[pid].key;
      RowKeeps(timely, End(s, pid), key, s.login.attempts[key].(state := Rejected));
    }
  }

  lemma WasInTime(timely: bool, s: State, t: State, pid: Pid, r: Ref)
    requires pid in s.procs && r in Held(s.procs[pid]) && Referenced(t, r) && (timely ==> StoresInTime(s, t))
    ensures timely ==> InTime(s, r)
  {
  }

  lemma TokenMoves(v: Versions, a: Attempts, key: AttemptKey, token: Ref)
    requires key in a && a[key].state.Exchanging? && Owned(v, token, AttemptToken(key))
    ensures AttemptsMove(v, a, a[key := a[key].(state := IdentityPending, token := token)], {token})
  {
  }

  lemma StoreMoves(timely: bool, s: State, pid: Pid, t: State)
    requires SecretInv(timely, s) && pid in s.procs && s.procs[pid].TokenSealed?
    requires t == StoreToken(s, pid, false) && t.login != s.login && (timely ==> StoresInTime(s, t))
    ensures Moves(timely, s, t, pid, {s.procs[pid].token})
  {
    hide SecretInv, AttemptsMove;
    var p := s.procs[pid];
    ProcIsOk(timely, s, pid);
    assert AttemptsMove(s.creds.versions, s.login.attempts, t.login.attempts, {p.token}) by {
      TokenMoves(s.creds.versions, s.login.attempts, p.key, p.token);
    }
    assert Referenced(t, p.token) by { assert t.login.attempts[p.key].token == p.token; }
    WasInTime(timely, s, t, pid, p.token);
  }

  lemma StoreTokenKeeps(timely: bool, s: State, pid: Pid, lost: bool)
    requires SecretInv(timely, s)
    requires timely ==> StoresInTime(s, StoreToken(s, pid, lost))
    ensures SecretInv(timely, StoreToken(s, pid, lost))
  {
    hide SecretInv, ProcOk, Moves;
    var t := StoreToken(s, pid, lost);
    if t != s {
      var p := s.procs[pid];
      if lost {
        EndKeeps(timely, s, pid);
      } else if t.login == s.login {
        ProcIsOk(timely, s, pid);
        DiscardKeeps(timely, s, pid, [p.token]);
      } else {
        StoreMoves(timely, s, pid, t);
        assert ProcOk(timely, t, pid, t.procs[pid]) by { PlainIsOk(timely, t, pid, t.procs[pid]); }
        QuietKeeps(timely, s, t, pid, {p.token});
      }
    }
  }

  lemma LookupSeals(s: State, pid: Pid, identity: Option<Actor>, access: Ref, refresh: Ref)
    requires pid in s.procs && s.procs[pid].Identify?
    requires var t := ConfirmLookup(s, pid, identity, access, refresh);
      t != s && pid in t.procs && (t.procs[pid].ConfirmSealed? || t.procs[pid].Sweep?)
    ensures var t := ConfirmLookup(s, pid, identity, access, refresh);
      Seals(s, t, pid, if t.procs[pid].ConfirmSealed? && t.procs[pid].refresh != "" then {access, refresh} else {access})
  {
    hide Seals, InState;
    var p, t := s.procs[pid], ConfirmLookup(s, pid, identity, access, refresh);
    if t.procs[pid].ConfirmSealed? && t.procs[pid].refresh != "" {
      TwoSealed(s, pid, access, refresh, identity.value, t.procs[pid]);
    } else {
      OneSealed(s, pid, access, UserToken(identity.value), t.procs[pid]);
    }
  }

  lemma ConfirmLookupKeeps(timely: bool, s: State, pid: Pid, identity: Option<Actor>, access: Ref, refresh: Ref)
    requires SecretInv(timely, s)
    ensures SecretInv(timely, ConfirmLookup(s, pid, identity, access, refresh))
  {
    hide SecretInv, ProcOk, Moves, Seals;
    var t := ConfirmLookup(s, pid, identity, access, refresh);
    if t != s {
      if pid !in t.procs {
        EndKeeps(timely, s, pid);
      } else if t.procs[pid].Mismatch? {
        PutKeeps(timely, s, pid, t.procs[pid]);
      } else {
        LookupSeals(s, pid, identity, access, refresh);
        if t.procs[pid].ConfirmSealed? && t.procs[pid].refresh != "" {
          TwoSealedKeeps(timely, s, t, pid, identity.value, access, refresh);
        } else {
          OneSealedKeeps(timely, s, t, pid, identity.value, access);
        }
      }
    }
  }

  lemma GrantedMove(v: Versions, a: Attempts, key: AttemptKey, actor: Actor, stored: set<Ref>)
    requires key in a && a[key].state.IdentityPending?
    ensures AttemptsMove(v, a, a[key := a[key].(state := Confirmed, actor := Some(actor))], stored)
  {
  }

  lemma ConnMoves(v: Versions, c: Conns, x: Actor, row: Connection, stored: set<Ref>)
    requires ConnRefs(v, x, row) && row.access in stored && (row.refresh != "" ==> row.refresh in stored)
    ensures ConnsMove(v, c, c[x := row], stored)
  {
  }

  lemma GrantMoves(timely: bool, s: State, pid: Pid, grant: Grant, t: State)
    requires SecretInv(timely, s) && t == ConfirmCommit(s, pid, grant, false, false) && pid in s.procs && pid !in t.procs
    requires timely ==> StoresInTime(s, t)
    ensures Moves(timely, s, t, pid, Held(s.procs[pid]))
  {
    hide SecretInv, AttemptsMove, ConnsMove;
    var p, v := s.procs[pid], s.creds.versions;
    ProcIsOk(timely, s, pid);
    GrantedMove(v, s.login.attempts, p.key, p.actor, Held(p));
    ConnMoves(v, s.creds.conns, p.actor, t.creds.conns[p.actor], Held(p));
    forall r | r in Held(p)
      ensures timely ==> InTime(s, r)
    {
      assert Referenced(t, r) by { assert t.creds.conns[p.actor].access == p.access && t.creds.conns[p.actor].refresh == p.refresh; }
      WasInTime(timely, s, t, pid, r);
    }
  }

  lemma ConfirmCommitKeeps(timely: bool, s: State, pid: Pid, grant: Grant, disabled: bool, lost: bool)
    requires SecretInv(timely, s)
    requires timely ==> StoresInTime(s, ConfirmCommit(s, pid, grant, disabled, lost))
    ensures SecretInv(timely, ConfirmCommit(s, pid, grant, disabled, lost))
  {
    hide SecretInv, ProcOk, Moves, StoresInTime;
    var t := ConfirmCommit(s, pid, grant, disabled, lost);
    if t != s {
      var p := s.procs[pid];
      if pid in t.procs {
        hide ConfirmAllowed;
        DiscardKeeps(timely, s, pid, [p.access, p.refresh]);
        if p.key in s.login.attempts {
          RowKeeps(timely, Discard(s, pid, [p.access, p.refresh]), p.key, s.login.attempts[p.key].(state := Superseded));
        }
      } else if lost {
        EndKeeps(timely, s, pid);
      } else {
        GrantMoves(timely, s, pid, grant, t);
        QuietKeeps(timely, s, t, pid, Held(p));
      }
    }
  }

  lemma LoginStepKeeps(timely: bool, s: State, pid: Pid, a: LoginAction)
    requires SecretInv(timely, s)
    requires timely ==> StoresInTime(s, ApplyLogin(s, pid, a))
    ensures SecretInv(timely, ApplyLogin(s, pid, a))
  {
    hide SecretInv, StoresInTime, StartSeal, StartCommit, CallbackBegin, CallbackExchange, MarkUnknown, StoreToken,
         ConfirmLookup, RejectAttempt, ConfirmCommit;
    match a {
      case DoStartSeal(key, purpose, session, ref) => StartSealKeeps(timely, s, pid, key, purpose, session, ref);
      case DoStartCommit(lost) => StartCommitKeeps(timely, s, pid, lost);
      case DoCallbackBegin(key, code) => CallbackKeeps(timely, s, pid, key, code);
      case DoCallbackExchange(exchange) => ExchangeKeeps(timely, s, pid, exchange);
      case DoMarkUnknown => MarkUnknownKeeps(timely, s, pid);
      case DoStoreToken(lost) => StoreTokenKeeps(timely, s, pid, lost);
      case DoConfirmLookup(identity, access, refresh) => ConfirmLookupKeeps(timely, s, pid, identity, access, refresh);
      case DoRejectAttempt => RejectAttemptKeeps(timely, s, pid);
      case DoConfirmCommit(grant, disabled, lost) => ConfirmCommitKeeps(timely, s, pid, grant, disabled, lost);
      case DoWorkerPick(key, renewable) => PutKeeps(timely, s, pid, Identify(key, renewable));
      case DoTouch(hash) => LoginKeeps(timely, s, Touched(s.login, s.now, hash));
      case DoLogout(hash) => LoginKeeps(timely, s, LoggedOut(s.login, hash));
    }
  }

  // ---- the collectors ----

  /** What maintain lists for a row it selected can never be live again. A pending row has no token,
      which is what keeps its material out of the list. */
  lemma SelectedIsDoomed(timely: bool, s: State, key: AttemptKey, op: SweepOp)
    requires SecretInv(timely, s) && key in s.login.attempts && Sweepable(s.login.attempts[key])
    requires op in RowOps(key, s.login.attempts[key]) && op.Destroy?
    ensures Doomed(timely, s, op.ref)
  {
    assert AttemptRefs(s.creds.versions, key, s.login.attempts[key]);
    forall q | q in s.procs ensures op.ref !in Held(s.procs[q]) {
      assert ProcOk(timely, s, q, s.procs[q]);
    }
  }

  lemma {:induction false} PlanIsDoomed(timely: bool, s: State, keys: seq<AttemptKey>, op: SweepOp)
    requires SecretInv(timely, s) && forall k | k in keys :: k in s.login.attempts && Sweepable(s.login.attempts[k])
    requires op in SweepOps(s.login.attempts, keys) && op.Destroy?
    ensures Doomed(timely, s, op.ref)
    decreases |keys|
  {
    if op in RowOps(keys[0], s.login.attempts[keys[0]]) {
      SelectedIsDoomed(timely, s, keys[0], op);
    } else {
      PlanIsDoomed(timely, s, keys[1..], op);
    }
  }

  lemma MaintainKeeps(timely: bool, s: State, pid: Pid, keys: seq<AttemptKey>)
    requires SecretInv(timely, s)
    ensures SecretInv(timely, MaintainSelect(s, pid, keys))
  {
    if MaintainSelect(s, pid, keys) != s {
      var ops := SweepOps(s.login.attempts, keys);
      forall op | op in ops && op.Destroy? ensures Doomed(timely, s, op.ref) {
        PlanIsDoomed(timely, s, keys, op);
      }
      SweepKeeps(timely, s, pid, ops);
    }
  }

  lemma OrphansKeep(timely: bool, s: State, pid: Pid, refs: seq<Ref>)
    requires SecretInv(timely, s)
    ensures SecretInv(timely, OrphanSelect(s, pid, refs))
  {
    if OrphanSelect(s, pid, refs) != s {
      forall op | op in Discards(refs) && op.Destroy? ensures Doomed(timely, s, op.ref) {
        DiscardsMembers(refs, op);
        assert Orphan(s, op.ref) && !Referenced(s, op.ref);
      }
      SweepKeeps(timely, s, pid, Discards(refs));
    }
  }

  lemma PerformKeeps(timely: bool, s: State, op: SweepOp)
    requires SecretInv(timely, s) && (op.Destroy? ==> Doomed(timely, s, op.ref))
    ensures SecretInv(timely, Perform(s, op))
  {
    match op {
      case Destroy(ref) => MovesKeep(timely, s, Perform(s, op), 0, {});
      case ClearMaterial(key, ref) =>
        if Perform(s, op) != s {
          RowKeeps(timely, s, key, s.login.attempts[key].(material := ""));
        }
      case ClearToken(key, ref) =>
        if Perform(s, op) != s {
          RowKeeps(timely, s, key, s.login.attempts[key].(token := ""));
        }
    }
  }

  lemma SweepStepKeeps(timely: bool, s: State, pid: Pid, a: SweepAction)
    requires SecretInv(timely, s)
    ensures SecretInv(timely, ApplySweep(s, pid, a))
  {
    match a {
      case DoExpire => LoginKeeps(timely, s, s.login.(attempts := ExpireRows(s.login.attempts, s.now)));
      case DoMaintainSelect(keys) => MaintainKeeps(timely, s, pid, keys);
      case DoOrphanSelect(refs) => OrphansKeep(timely, s, pid, refs);
      case DoSweepStep =>
        EndKeeps(timely, s, pid);
        if pid in s.procs && s.procs[pid].Sweep? && s.procs[pid].ops != [] {
          assert ProcOk(timely, s, pid, s.procs[pid]);
          SweepKeeps(timely, s, pid, s.procs[pid].ops);
          SweepKeeps(timely, s, pid, s.procs[pid].ops[1..]);
          PerformKeeps(timely, Put(s, pid, Sweep(s.procs[pid].ops[1..])), s.procs[pid].ops[0]);
        }
    }
  }

  // ---- the credential steps ----

  lemma RefreshClaimKeeps(timely: bool, s: State, pid: Pid)
    requires SecretInv(timely, s)
    ensures SecretInv(timely, RefreshClaim(s, pid))
  {
    hide SecretInv, ProcOk;
    var t := RefreshClaim(s, pid);
    if t != s {
      if pid !in t.procs {
        EndKeeps(timely, s, pid);
      } else {
        PlainIsOk(timely, t, pid, t.procs[pid]);
        QuietKeeps(timely, s, t, pid, {});
      }
    }
  }

  /** A refresh that goes on without any version of its own. */
  lemma EmptyHandedKeeps(timely: bool, s: State, pid: Pid, p: Proc)
    requires SecretInv(timely, s) && (Plain(p) || (p.RefreshFailed? && p.leftovers == []))
    ensures SecretInv(timely, Put(s, pid, p))
  {
    MovesKeep(timely, s, Put(s, pid, p), pid, {});
  }

  lemma PresentedKeeps(timely: bool, s: State, presented: seq<Ref>)
    requires SecretInv(timely, s)
    ensures SecretInv(timely, s.(creds := s.creds.(presented := presented)))
  {
    MovesKeep(timely, s, s.(creds := s.creds.(presented := presented)), 0, {});
  }

  lemma RefreshSendKeeps(timely: bool, s: State, pid: Pid)
    requires SecretInv(timely, s)
    ensures SecretInv(timely, RefreshSend(s, pid))
  {
    hide SecretInv, ProcOk, Moves;
    var t := RefreshSend(s, pid);
    if t != s {
      EmptyHandedKeeps(timely, s, pid, t.procs[pid]);
      PresentedKeeps(timely, Put(s, pid, t.procs[pid]), t.creds.presented);
    }
  }

  lemma AnswerSeals(s: State, pid: Pid, reply: RefreshReply)
    requires pid in s.procs && s.procs[pid].RefreshSent? && reply.NewTokens? && RefreshAnswer(s, pid, reply) != s
    ensures var t := RefreshAnswer(s, pid, reply);
      Seals(s, t, pid, if t.procs[pid].RefreshSealed? && t.procs[pid].refresh != "" then {reply.access, reply.refresh}
                       else {reply.access})
  {
    hide Seals;
    var p, t := s.procs[pid], RefreshAnswer(s, pid, reply);
    if t.procs[pid].RefreshSealed? && t.procs[pid].refresh != "" {
      TwoSealed(s, pid, reply.access, reply.refresh, p.actor, t.procs[pid]);
    } else {
      OneSealed(s, pid, reply.access, UserToken(p.actor), t.procs[pid]);
    }
  }

  lemma RefreshAnswerKeeps(timely: bool, s: State, pid: Pid, reply: RefreshReply)
    requires SecretInv(timely, s)
    ensures SecretInv(timely, RefreshAnswer(s, pid, reply))
  {
    hide SecretInv, ProcOk, Moves, Seals;
    var t := RefreshAnswer(s, pid, reply);
    if t != s {
      if reply.RefreshError? {
        EmptyHandedKeeps(timely, s, pid, t.procs[pid]);
      } else {
        AnswerSeals(s, pid, reply);
        if t.procs[pid].RefreshSealed? && t.procs[pid].refresh != "" {
          TwoSealedKeeps(timely, s, t, pid, s.procs[pid].actor, reply.access, reply.refresh);
        } else {
          OneSealedKeeps(timely, s, t, pid, s.procs[pid].actor, reply.access);
        }
      }
    }
  }

  lemma RefreshMoves(timely: bool, s: State, pid: Pid, revision: string, accessExpires: Option<nat>, refreshExpires: Option<nat>, t: State)
    requires SecretInv(timely, s) && t == RefreshCommit(s, pid, revision, accessExpires, refreshExpires, false)
    requires pid in s.procs && s.procs[pid].RefreshSealed? && pid !in t.procs
    requires timely ==> StoresInTime(s, t)
    ensures Moves(timely, s, t, pid, Held(s.procs[pid]))
  {
    hide SecretInv, ConnsMove;
    var p := s.procs[pid];
    ProcIsOk(timely, s, pid);
    ConnMoves(s.creds.versions, s.creds.conns, p.actor, t.creds.conns[p.actor], Held(p));
    forall r | r in Held(p)
      ensures timely ==> InTime(s, r)
    {
      assert Referenced(t, r) by { assert t.creds.conns[p.actor].access == p.access && t.creds.conns[p.actor].refresh == p.refresh; }
      WasInTime(timely, s, t, pid, r);
    }
  }

  lemma RefreshCommitKeeps(timely: bool, s: State, pid: Pid, revision: string, accessExpires: Option<nat>, refreshExpires: Option<nat>, lost: bool)
    requires SecretInv(timely, s)
    requires timely ==> StoresInTime(s, RefreshCommit(s, pid, revision, accessExpires, refreshExpires, lost))
    ensures SecretInv(timely, RefreshCommit(s, pid, revision, accessExpires, refreshExpires, lost))
  {
    hide SecretInv, ProcOk, Moves, StoresInTime;
    var t := RefreshCommit(s, pid, revision, accessExpires, refreshExpires, lost);
    if t != s {
      var p := s.procs[pid];
      if lost {
        EndKeeps(timely, s, pid);
      } else if pid in t.procs {
        DiscardKeeps(timely, s, pid, [p.access, p.refresh]);
      } else {
        RefreshMoves(timely, s, pid, revision, accessExpires, refreshExpires, t);
        QuietKeeps(timely, s, t, pid, Held(p));
      }
    }
  }

  lemma LeftoversKeep(timely: bool, s: State, pid: Pid)
    requires SecretInv(timely, s) && pid in s.procs && s.procs[pid].RefreshFailed?
    ensures SecretInv(timely, Discard(s, pid, s.procs[pid].leftovers))
  {
    var refs := s.procs[pid].leftovers;
    assert ProcOk(timely, s, pid, s.procs[pid]);
    forall op | op in Discards(refs) && op.Destroy? ensures Doomed(timely, s, op.ref) {
      DiscardsMembers(refs, op);
    }
    SweepKeeps(timely, s, pid, Discards(refs));
  }

  lemma RefreshGiveUpKeeps(timely: bool, s: State, pid: Pid)
    requires SecretInv(timely, s)
    ensures SecretInv(timely, RefreshGiveUp(s, pid))
  {
    var t := RefreshGiveUp(s, pid);
    if t != s {
      var p := s.procs[pid];
      LeftoversKeep(timely, s, pid);
      if t.creds != s.creds {
        ConnKeeps(timely, Discard(s, pid, p.leftovers), p.actor, t.creds.conns[p.actor]);
      }
    }
  }

  lemma RefreshStepKeeps(timely: bool, s: State, pid: Pid, a: RefreshAction)
    requires SecretInv(timely, s)
    requires timely ==> StoresInTime(s, ApplyRefresh(s, pid, a))
    ensures SecretInv(timely, ApplyRefresh(s, pid, a))
  {
    match a {
      case DoCredentialRead(actor) =>
        if CredentialRead(s, pid, actor) != s {
          PutKeeps(timely, s, pid, CredentialRead(s, pid, actor).procs[pid]);
        }
      case DoRefreshClaim => RefreshClaimKeeps(timely, s, pid);
      case DoRefreshSend => RefreshSendKeeps(timely, s, pid);
      case DoRefreshAnswer(reply) => RefreshAnswerKeeps(timely, s, pid, reply);
      case DoRefreshCommit(revision, accessExpires, refreshExpires, lost) =>
        RefreshCommitKeeps(timely, s, pid, revision, accessExpires, refreshExpires, lost);
      case DoRefreshGiveUp => RefreshGiveUpKeeps(timely, s, pid);
      case DoRejectCredential(actor, revision, epoch) =>
        if RejectCredential(s, actor, revision, epoch) != s {
          ConnKeeps(timely, s, actor, RejectCredential(s, actor, revision, epoch).creds.conns[actor]);
        }
    }
  }

  predicate Discovers(p: Proc) {
    p.BatchClaimed? || p.BatchRead? || p.Fetching? || p.Deferring?
  }

  /** A discovery step changes its batch and its own operation, which stays one of discovery. */
  lemma BatchStepIs(up: Upstream, s: State, pid: Pid, a: BatchAction)
    ensures var t := ApplyBatch(up, s, pid, a);
      var u := s.(batches := t.batches);
      t == u || t == End(u, pid) || (pid in t.procs && Discovers(t.procs[pid]) && t == Put(u, pid, t.procs[pid]))
  {
  }

  lemma BatchStepKeeps(timely: bool, up: Upstream, s: State, pid: Pid, a: BatchAction)
    requires SecretInv(timely, s)
    ensures SecretInv(timely, ApplyBatch(up, s, pid, a))
  {
    hide SecretInv;
    var t := ApplyBatch(up, s, pid, a);
    var u := s.(batches := t.batches);
    BatchesKeep(timely, s, t.batches);
    BatchStepIs(up, s, pid, a);
    hide ApplyBatch;
    if pid !in t.procs {
      EndKeeps(timely, u, pid);
    } else if t != u {
      PutKeeps(timely, u, pid, t.procs[pid]);
    }
  }

  // ---- every run ----

  lemma TickKeeps(timely: bool, s: State, seconds: nat)
    requires SecretInv(timely, s)
    ensures SecretInv(timely, s.(now := s.now + seconds))
  {
    MovesKeep(timely, s, s.(now := s.now + seconds), 0, {});
  }

  lemma StepKeepsInv(timely: bool, up: Upstream, s: State, a: Action)
    requires SecretInv(timely, s)
    requires timely ==> StoresInTime(s, Apply(up, s, a))
    ensures SecretInv(timely, Apply(up, s, a))
  {
    hide SecretInv, StoresInTime, ApplyLogin, ApplySweep, ApplyRefresh, ApplyBatch;
    match a {
      case Tick(seconds) => TickKeeps(timely, s, seconds);
      case Crash(pid) => EndKeeps(timely, s, pid);
      case LoginStep(pid, login) => LoginStepKeeps(timely, s, pid, login);
      case SweepStepOf(pid, sweep) => SweepStepKeeps(timely, s, pid, sweep);
      case RefreshStep(pid, refresh) => RefreshStepKeeps(timely, s, pid, refresh);
      case BatchStep(pid, batch) => BatchStepKeeps(timely, up, s, pid, batch);
    }
  }

  lemma {:induction false} RunKeeps(timely: bool, up: Upstream, s: State, actions: seq<Action>)
    requires SecretInv(timely, s)
    requires timely ==> TimelyRun(up, s, actions)
    ensures SecretInv(timely, Run(up, s, actions))
    decreases |actions|
  {
    if actions != [] {
      StepKeepsInv(timely, up, s, actions[0]);
      RunKeeps(timely, up, Apply(up, s, actions[0]), actions[1..]);
    }
  }

  lemma DoomedIsNotLive(s: State, ref: Ref)
    requires SecretInv(true, s) && Doomed(true, s, ref)
    ensures !LiveSecret(s, ref)
  {
    forall k | k in s.login.attempts
      ensures !NeedsMaterial(s.login.attempts[k], ref) && !NeedsToken(s.login.attempts[k], ref)
    {
      assert AttemptRefs(s.creds.versions, k, s.login.attempts[k]);
    }
    forall a | a in s.creds.conns ensures s.creds.conns[a].access != ref && (ref == "" || s.creds.conns[a].refresh != ref) {
      assert ConnRefs(s.creds.versions, a, s.creds.conns[a]);
    }
  }

  /** In every reachable state every live secret exists and is not destroyed. */
  lemma {:induction false} LiveSecretsSurvive(up: Upstream, actions: seq<Action>, ref: Ref)
    requires TimelyRun(up, Init, actions) && LiveSecret(Run(up, Init, actions), ref)
    ensures Openable(Run(up, Init, actions), ref)
  {
    RunKeeps(true, up, Init, actions);
    var s := Run(up, Init, actions);
    forall k | k in s.login.attempts ensures AttemptRefs(s.creds.versions, k, s.login.attempts[k]) {}
    forall a | a in s.creds.conns ensures ConnRefs(s.creds.versions, a, s.creds.conns[a]) {}
    if s.creds.versions[ref].destroyed {
      DoomedIsNotLive(s, ref);
    }
  }

  /** In every reachable state nothing on any collector's or discarder's list is live. */
  lemma {:induction false} ListedIsNotLive(up: Upstream, actions: seq<Action>, pid: Pid, op: SweepOp)
    requires TimelyRun(up, Init, actions)
    requires var s := Run(up, Init, actions);
      pid in s.procs && s.procs[pid].Sweep? && op in s.procs[pid].ops && op.Destroy?
    ensures !LiveSecret(Run(up, Init, actions), op.ref)
  {
    var s := Run(up, Init, actions);
    RunKeeps(true, up, Init, actions);
    assert ProcOk(true, s, pid, s.procs[pid]);
    DoomedIsNotLive(s, op.ref);
  }

  // ---- without the timing assumption ----

  const LATE_KEY := AttemptKey("browser", "attempt")

  /** Start seals its material, is slow, and stores it after the orphan sweep has listed it. */
  function LateRun(): seq<Action> {
    [LoginStep(1, DoStartSeal(LATE_KEY, Login, None, "material")),
     Tick(901),
     SweepStepOf(2, DoOrphanSelect(["material"])),
     LoginStep(1, DoStartCommit(false)),
     SweepStepOf(2, DoSweepStep)]
  }

  function Sealed(): State {
    Put(Seal(Init, "material", AttemptMaterial(LATE_KEY), 1), 1, StartSealed(LATE_KEY, Login, None, "material", true))
  }

  function Listed(): State {
    Put(Sealed().(now := 901), 2, Sweep([Destroy("material")]))
  }

  lemma {:induction false} MaterialIsSealed()
    ensures StartSeal(Init, 1, LATE_KEY, Login, None, "material") == Sealed()
  {
  }

  lemma {:induction false} OneDiscard(ref: Ref)
    requires ref != ""
    ensures Discards([ref]) == [Destroy(ref)]
  {
    assert [ref][1..] == [];
  }

  lemma {:induction false} OrphanIsListed()
    ensures OrphanSelect(Sealed().(now := 901), 2, ["material"]) == Listed()
  {
    assert Orphan(Sealed().(now := 901), "material");
    OneDiscard("material");
  }

  lemma {:induction false} LateStartCommits()
    ensures var t := StartCommit(Listed(), 1, false);
      LATE_KEY in t.login.attempts && NeedsMaterial(t.login.attempts[LATE_KEY], "material")
      && t.creds == Listed().creds && 2 in t.procs && t.procs[2] == Sweep([Destroy("material")])
  {
    var s := Listed();
    assert (set k | k in s.login.attempts && k.binding == "browser" && s.login.attempts[k].createdAt + 60 > s.now) == {};
    assert StartAllowed(s, s.procs[1]);
  }

  lemma {:induction false} SweepDestroys(s: State, pid: Pid, ref: Ref)
    requires pid in s.procs && s.procs[pid] == Sweep([Destroy(ref)]) && ref in s.creds.versions
    ensures SweepStep(s, pid).login == s.login && !Openable(SweepStep(s, pid), ref)
  {
  }

  /** The assumption is needed: a reference stored later than 15 minutes after its seal can be live and destroyed. */
  lemma {:induction false} LateStoreLosesSecret(up: Upstream)
    ensures LiveSecret(Run(up, Init, LateRun()), "material") && !Openable(Run(up, Init, LateRun()), "material")
  {
    hide StartSeal, StartCommit, OrphanSelect, SweepStep, Run, Openable;
    var s := StartCommit(Listed(), 1, false);
    MaterialIsSealed();
    OrphanIsListed();
    LateStartCommits();
    SweepDestroys(s, 2, "material");
    RunOfFive(up, Init, LateRun());
  }

  lemma {:induction false} RunOfFive(up: Upstream, s: State, actions: seq<Action>)
    requires |actions| == 5
    ensures Run(up, s, actions)
      == Apply(up, Apply(up, Apply(up, Apply(up, Apply(up, s, actions[0]), actions[1]), actions[2]), actions[3]), actions[4])
  {
    hide Apply;
    RunFrom(up, s, actions, 0);
    RunFrom(up, Apply(up, s, actions[0]), actions, 1);
    RunFrom(up, Apply(up, Apply(up, s, actions[0]), actions[1]), actions, 2);
    var t := Apply(up, Apply(up, Apply(up, s, actions[0]), actions[1]), actions[2]);
    RunFrom(up, t, actions, 3);
    RunFrom(up, Apply(up, t, actions[3]), actions, 4);
    assert actions[0..] == actions && actions[5..] == [];
  }

  lemma {:induction false} RunFrom(up: Upstream, s: State, actions: seq<Action>, i: nat)
    requires i < |actions|
    ensures Run(up, s, actions[i..]) == Run(up, Apply(up, s, actions[i]), actions[i + 1..])
  {
    assert actions[i..][1..] == actions[i + 1..];
  }
}
