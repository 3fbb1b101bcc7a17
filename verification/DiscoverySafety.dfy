/** Repository discovery: whatever the interleaving of workers, leases, refreshes, rejections and
    reconnects, a batch holds exactly the pages before its cursor, fetched with its own token. */
module DiscoverySafety {
  import opened AccessModel
  import opened Text
  import SecretSafety
  import CredentialSafety

  type Conns = map<Actor, Connection>
  type Batches = map<string, Batch>
  type Procs = map<Pid, Proc>

  /** The page reached after following `k` next links from `page`; 0 once the chain has ended. */
  function PageFrom(up: Upstream, token: Ref, page: nat, k: nat): nat {
    if k == 0 then page
    else
      var p := PageFrom(up, token, page, k - 1);
      if p == 0 then 0 else up(token, p).next
  }

  /** The items of `k` pages of the chain, starting with `page`. */
  function ItemsFrom(up: Upstream, token: Ref, page: nat, k: nat): seq<Repo> {
    if k == 0 then []
    else
      var p := PageFrom(up, token, page, k - 1);
      ItemsFrom(up, token, page, k - 1) + (if p == 0 then [] else up(token, p).items)
  }

  lemma {:induction false} ChainSplits(up: Upstream, token: Ref, page: nat, n: nat, k: nat)
    ensures PageFrom(up, token, page, n + k) == PageFrom(up, token, PageFrom(up, token, page, n), k)
    ensures ItemsFrom(up, token, page, n + k)
         == ItemsFrom(up, token, page, n) + ItemsFrom(up, token, PageFrom(up, token, page, n), k)
    decreases k
  {
    if k > 0 {
      ChainSplits(up, token, page, n, k - 1);
    }
  }

  lemma {:induction false} UpsertsAppend(repos: map<int, Repo>, xs: seq<Repo>, ys: seq<Repo>)
    ensures Upserts(repos, xs + ys) == Upserts(Upserts(repos, xs), ys)
    decreases |xs|
  {
    if xs == [] {
      assert xs + ys == ys;
    } else {
      assert (xs + ys)[0] == xs[0] && (xs + ys)[1..] == xs[1..] + ys;
      UpsertsAppend(repos[xs[0].id := xs[0]], xs[1..], ys);
    }
  }

  /** The batch holds the first `n` pages of its token's listing and its cursor is the next one;
      a complete batch holds the whole chain. */
  predicate IngestedPages(up: Upstream, b: Batch, n: nat) {
    && b.repos == Upserts(map[], ItemsFrom(up, b.token, 1, n))
    && PageFrom(up, b.token, 1, n) == (if b.complete then 0 else b.cursor)
  }

  ghost predicate Ingested(up: Upstream, b: Batch) {
    exists n: nat :: IngestedPages(up, b, n)
  }

  // ---- the invariant ----

  predicate CredentialOf(c: Conns, b: Batch) {
    && b.actor in c && b.epoch <= c[b.actor].epoch
    && (c[b.actor].epoch == b.epoch ==> c[b.actor].revision == b.revision && c[b.actor].access == b.token)
  }

  ghost predicate BatchOk(up: Upstream, c: Conns, b: Batch) {
    CredentialOf(c, b) && (!b.complete ==> b.cursor != 0) && Ingested(up, b)
  }

  /** The claim version the operation works under. */
  function ClaimOf(p: Proc): nat
    requires SecretSafety.Discovers(p)
  {
    match p
    case BatchClaimed(_, claim) => claim
    case BatchRead(_, batch) => batch.claim
    case Fetching(_, batch, _, _, _, _, _) => batch.claim
    case Deferring(_, claim) => claim
  }

  /** Under a claim version that is still current the row is as the claimer found it. */
  predicate SnapshotOk(row: Batch, b: Batch) {
    && b.actor == row.actor && b.revision == row.revision && b.epoch == row.epoch && b.token == row.token
    && (b.claim == row.claim ==> b.cursor == row.cursor)
  }

  predicate FetchOk(up: Upstream, c: Conns, p: Proc)
    requires p.Fetching?
  {
    && p.batch.actor in c && p.batch.epoch <= p.credEpoch <= c[p.batch.actor].epoch
    && (p.credEpoch == p.batch.epoch ==> p.access == p.batch.token)
    && p.next == PageFrom(up, p.access, p.batch.cursor, p.pages)
    && p.found == ItemsFrom(up, p.access, p.batch.cursor, p.pages)
  }

  predicate WorkerOk(up: Upstream, c: Conns, batches: Batches, p: Proc) {
    SecretSafety.Discovers(p) ==>
      && p.id in batches && ClaimOf(p) <= batches[p.id].claim
      && (ClaimOf(p) == batches[p.id].claim ==> !batches[p.id].complete)
      && (p.BatchRead? || p.Fetching? ==> SnapshotOk(batches[p.id], p.batch))
      && (p.Fetching? ==> FetchOk(up, c, p))
  }

  predicate Rivals(p: Proc, q: Proc) {
    SecretSafety.Discovers(p) && SecretSafety.Discovers(q) && p.id == q.id && ClaimOf(p) == ClaimOf(q)
  }

  ghost predicate BatchesOk(up: Upstream, c: Conns, batches: Batches) {
    forall id {:trigger BatchOk(up, c, batches[id])} | id in batches :: BatchOk(up, c, batches[id])
  }

  ghost predicate WorkersOk(up: Upstream, c: Conns, batches: Batches, procs: Procs) {
    forall q {:trigger WorkerOk(up, c, batches, procs[q])} | q in procs :: WorkerOk(up, c, batches, procs[q])
  }

  ghost predicate NoRivals(procs: Procs) {
    forall q1, q2 {:trigger Rivals(procs[q1], procs[q2])} | q1 in procs && q2 in procs && q1 != q2 ::
      !Rivals(procs[q1], procs[q2])
  }

  ghost predicate DiscoveryInv(up: Upstream, s: State) {
    && BatchesOk(up, s.creds.conns, s.batches)
    && WorkersOk(up, s.creds.conns, s.batches, s.procs)
    && NoRivals(s.procs)
  }

  // ---- steps elsewhere ----

  lemma CredentialStays(c: Conns, c': Conns, b: Batch)
    requires CredentialSafety.ConnsEvolve(c, c') && CredentialOf(c, b)
    ensures CredentialOf(c', b)
  {
  }

  lemma WorkerStays(up: Upstream, c: Conns, c': Conns, batches: Batches, p: Proc)
    requires CredentialSafety.ConnsEvolve(c, c') && WorkerOk(up, c, batches, p)
    ensures WorkerOk(up, c', batches, p)
  {
  }

  ghost predicate Elsewhere(s: State, t: State, pid: Pid) {
    && t.batches == s.batches
    && SecretSafety.SameBut(s.procs, t.procs, pid)
    && (pid in t.procs && (pid !in s.procs || t.procs[pid] != s.procs[pid]) ==> !SecretSafety.Discovers(t.procs[pid]))
  }

  lemma ElsewhereKeeps(up: Upstream, s: State, t: State, pid: Pid)
    requires DiscoveryInv(up, s) && Elsewhere(s, t, pid) && CredentialSafety.ConnsEvolve(s.creds.conns, t.creds.conns)
    ensures DiscoveryInv(up, t)
  {
    forall id | id in t.batches ensures BatchOk(up, t.creds.conns, t.batches[id]) {
      assert BatchOk(up, s.creds.conns, s.batches[id]);
      CredentialStays(s.creds.conns, t.creds.conns, s.batches[id]);
    }
    forall q | q in t.procs ensures WorkerOk(up, t.creds.conns, t.batches, t.procs[q]) {
      if q in s.procs && t.procs[q] == s.procs[q] {
        assert WorkerOk(up, s.creds.conns, s.batches, s.procs[q]);
        WorkerStays(up, s.creds.conns, t.creds.conns, s.batches, s.procs[q]);
      }
    }
    forall q1, q2 | q1 in t.procs && q2 in t.procs && q1 != q2 ensures !Rivals(t.procs[q1], t.procs[q2]) {
      assert q1 in s.procs && q2 in s.procs ==> !Rivals(s.procs[q1], s.procs[q2]);
    }
  }

  lemma StartElsewhere(s: State, pid: Pid, a: LoginAction)
    requires a.DoStartSeal? || a.DoStartCommit?
    ensures Elsewhere(s, ApplyLogin(s, pid, a), pid)
  {
  }

  lemma ExchangeElsewhere(s: State, pid: Pid, a: LoginAction)
    requires a.DoCallbackBegin? || a.DoCallbackExchange?
    ensures Elsewhere(s, ApplyLogin(s, pid, a), pid)
  {
  }

  lemma StoreElsewhere(s: State, pid: Pid, a: LoginAction)
    requires a.DoMarkUnknown? || a.DoStoreToken?
    ensures Elsewhere(s, ApplyLogin(s, pid, a), pid)
  {
  }

  lemma ConfirmElsewhere(s: State, pid: Pid, grant: Grant, disabled: bool, lost: bool)
    ensures Elsewhere(s, ConfirmCommit(s, pid, grant, disabled, lost), pid)
  {
  }

  lemma LookupElsewhere(s: State, pid: Pid, identity: Option<Actor>, access: Ref, refresh: Ref)
    ensures Elsewhere(s, ConfirmLookup(s, pid, identity, access, refresh), pid)
  {
  }

  lemma IdentityElsewhere(s: State, pid: Pid, a: LoginAction)
    requires a.DoConfirmLookup? || a.DoRejectAttempt? || a.DoConfirmCommit? || a.DoWorkerPick? || a.DoTouch? || a.DoLogout?
    ensures Elsewhere(s, ApplyLogin(s, pid, a), pid)
  {
    match a {
      case DoConfirmLookup(identity, access, refresh) => LookupElsewhere(s, pid, identity, access, refresh);
      case DoConfirmCommit(grant, disabled, lost) => ConfirmElsewhere(s, pid, grant, disabled, lost);
      case _ =>
    }
  }

  lemma PerformElsewhere(s: State, op: SweepOp)
    ensures Perform(s, op).batches == s.batches && Perform(s, op).procs == s.procs
  {
  }

  lemma SweepElsewhere(s: State, pid: Pid, a: SweepAction)
    ensures Elsewhere(s, ApplySweep(s, pid, a), pid)
  {
    if a.DoSweepStep? && pid in s.procs && s.procs[pid].Sweep? && s.procs[pid].ops != [] {
      var ops := s.procs[pid].ops;
      PerformElsewhere(Put(s, pid, Sweep(ops[1..])), ops[0]);
    }
  }

  lemma RefreshElsewhere(s: State, pid: Pid, a: RefreshAction)
    ensures Elsewhere(s, ApplyRefresh(s, pid, a), pid)
  {
    hide SecretSafety.SameBut;
    CredentialSafety.OwnStep(s, pid, a);
  }

  // ---- steps of the workers ----

  /** Claiming and deferring rewrite only claim, lease and schedule. */
  predicate Rescheduled(b: Batch, b': Batch) {
    b' == b.(claim := b'.claim, lease := b'.lease, nextRun := b'.nextRun) && b.claim <= b'.claim
  }

  lemma RescheduledOk(up: Upstream, c: Conns, b: Batch, b': Batch)
    requires BatchOk(up, c, b) && Rescheduled(b, b')
    ensures BatchOk(up, c, b')
  {
    var n: nat :| IngestedPages(up, b, n);
    assert IngestedPages(up, b', n);
  }

  lemma WorkerSeesReschedule(up: Upstream, c: Conns, batches: Batches, id: string, b': Batch, p: Proc)
    requires id in batches && Rescheduled(batches[id], b') && WorkerOk(up, c, batches, p)
    ensures WorkerOk(up, c, batches[id := b'], p)
  {
  }

  lemma RescheduleKeeps(up: Upstream, s: State, id: string, b: Batch)
    requires DiscoveryInv(up, s) && id in s.batches && Rescheduled(s.batches[id], b)
    ensures DiscoveryInv(up, SetBatch(s, id, b))
  {
    var t := SetBatch(s, id, b);
    forall x | x in t.batches ensures BatchOk(up, t.creds.conns, t.batches[x]) {
      assert BatchOk(up, s.creds.conns, s.batches[x]);
      if x == id { RescheduledOk(up, s.creds.conns, s.batches[x], b); }
    }
    forall q | q in t.procs ensures WorkerOk(up, t.creds.conns, t.batches, t.procs[q]) {
      assert WorkerOk(up, s.creds.conns, s.batches, s.procs[q]);
      WorkerSeesReschedule(up, s.creds.conns, s.batches, id, b, s.procs[q]);
    }
  }

  /** The worker moves on under its own claim, or takes a claim nobody has. */
  lemma WorkerKeeps(up: Upstream, s: State, pid: Pid, p: Proc)
    requires DiscoveryInv(up, s) && WorkerOk(up, s.creds.conns, s.batches, p)
    requires forall q | q in s.procs && q != pid :: !Rivals(p, s.procs[q])
    ensures DiscoveryInv(up, Put(s, pid, p))
  {
    var t := Put(s, pid, p);
    forall q | q in t.procs ensures WorkerOk(up, t.creds.conns, t.batches, t.procs[q]) {
      assert q != pid ==> WorkerOk(up, s.creds.conns, s.batches, s.procs[q]);
    }
    forall q1, q2 | q1 in t.procs && q2 in t.procs && q1 != q2 ensures !Rivals(t.procs[q1], t.procs[q2]) {
      assert q1 != pid && q2 != pid ==> !Rivals(s.procs[q1], s.procs[q2]);
    }
  }

  lemma SameClaimKeeps(up: Upstream, s: State, pid: Pid, p: Proc)
    requires DiscoveryInv(up, s) && WorkerOk(up, s.creds.conns, s.batches, p) && SecretSafety.Discovers(p)
    requires pid in s.procs && SecretSafety.Discovers(s.procs[pid]) && s.procs[pid].id == p.id && ClaimOf(s.procs[pid]) == ClaimOf(p)
    ensures DiscoveryInv(up, Put(s, pid, p))
  {
    forall q | q in s.procs && q != pid ensures !Rivals(p, s.procs[q]) {
      assert !Rivals(s.procs[pid], s.procs[q]);
    }
    WorkerKeeps(up, s, pid, p);
  }

  lemma EndKeeps(up: Upstream, s: State, pid: Pid)
    requires DiscoveryInv(up, s)
    ensures DiscoveryInv(up, End(s, pid))
  {
    ElsewhereKeeps(up, s, End(s, pid), pid);
  }

  lemma CreateKeeps(up: Upstream, s: State, id: string, actor: Actor)
    requires DiscoveryInv(up, s)
    ensures DiscoveryInv(up, BatchCreate(s, id, actor))
  {
    var t := BatchCreate(s, id, actor);
    if t != s {
      assert IngestedPages(up, t.batches[id], 0);
      forall x | x in t.batches ensures BatchOk(up, t.creds.conns, t.batches[x]) {
        assert x != id ==> BatchOk(up, s.creds.conns, s.batches[x]);
      }
      forall q | q in t.procs ensures WorkerOk(up, t.creds.conns, t.batches, t.procs[q]) {
        assert WorkerOk(up, s.creds.conns, s.batches, s.procs[q]);
      }
    }
  }

  lemma ClaimKeeps(up: Upstream, s: State, pid: Pid, id: string)
    requires DiscoveryInv(up, s)
    ensures DiscoveryInv(up, BatchClaim(s, pid, id))
  {
    var t := BatchClaim(s, pid, id);
    if t != s {
      RescheduleKeeps(up, s, id, t.batches[id]);
      var r := SetBatch(s, id, t.batches[id]);
      forall q | q in r.procs ensures !Rivals(t.procs[pid], r.procs[q]) {
        assert WorkerOk(up, s.creds.conns, s.batches, s.procs[q]);
      }
      WorkerKeeps(up, r, pid, t.procs[pid]);
    }
  }

  lemma ReadBackKeeps(up: Upstream, s: State, pid: Pid)
    requires DiscoveryInv(up, s)
    ensures DiscoveryInv(up, BatchReadBack(s, pid))
  {
    var t := BatchReadBack(s, pid);
    EndKeeps(up, s, pid);
    if t != s && pid in t.procs {
      assert WorkerOk(up, s.creds.conns, s.batches, s.procs[pid]);
      SameClaimKeeps(up, s, pid, t.procs[pid]);
    }
  }

  lemma CredentialKeeps(up: Upstream, s: State, pid: Pid)
    requires DiscoveryInv(up, s)
    ensures DiscoveryInv(up, BatchCredential(s, pid))
  {
    var t := BatchCredential(s, pid);
    if t != s {
      assert WorkerOk(up, s.creds.conns, s.batches, s.procs[pid]);
      assert BatchOk(up, s.creds.conns, s.batches[s.procs[pid].id]);
      SameClaimKeeps(up, s, pid, t.procs[pid]);
    }
  }

  lemma PageKeeps(up: Upstream, s: State, pid: Pid, failed: bool)
    requires DiscoveryInv(up, s)
    ensures DiscoveryInv(up, BatchPage(up, s, pid, failed))
  {
    var t := BatchPage(up, s, pid, failed);
    if t != s {
      assert WorkerOk(up, s.creds.conns, s.batches, s.procs[pid]);
      SameClaimKeeps(up, s, pid, t.procs[pid]);
    }
  }

  lemma DeferKeeps(up: Upstream, s: State, pid: Pid, delay: nat)
    requires DiscoveryInv(up, s)
    ensures DiscoveryInv(up, BatchDefer(s, pid, delay))
  {
    EndKeeps(up, s, pid);
    var t := BatchDefer(s, pid, delay);
    if t.batches != s.batches {
      RescheduleKeeps(up, End(s, pid), s.procs[pid].id, t.batches[s.procs[pid].id]);
    }
  }

  predicate CommitAllowed(s: State, pid: Pid) {
    && pid in s.procs && s.procs[pid].Fetching? && s.procs[pid].pages != 0
    && var b := s.procs[pid].batch;
    && Holds(s.creds.conns, b.actor, b.revision, b.epoch)
    && s.procs[pid].id in s.batches && s.batches[s.procs[pid].id].claim == b.claim
  }

  /** The fences of the commit: the claim makes the row the one the worker read, and the epoch makes
      the token it fetched with the batch's own. */
  lemma CommitExtends(up: Upstream, s: State, pid: Pid, row: Batch)
    requires DiscoveryInv(up, s) && CommitAllowed(s, pid)
    requires var p := s.procs[pid]; var b := s.batches[p.id];
      && row.token == b.token && row.repos == Upserts(b.repos, p.found)
      && row.complete == (p.next == 0) && (!row.complete ==> row.cursor == p.next)
    ensures s.procs[pid].access == row.token && Ingested(up, row)
  {
    var p := s.procs[pid];
    var b := s.batches[p.id];
    assert WorkerOk(up, s.creds.conns, s.batches, p) && BatchOk(up, s.creds.conns, b);
    var n: nat :| IngestedPages(up, b, n);
    ChainSplits(up, b.token, 1, n, p.pages);
    UpsertsAppend(map[], ItemsFrom(up, b.token, 1, n), p.found);
    assert IngestedPages(up, row, n + p.pages);
  }

  /** Everybody else works under an older claim of this batch, or on another batch. */
  lemma OthersAreFenced(up: Upstream, s: State, pid: Pid, row: Batch, q: Pid)
    requires DiscoveryInv(up, s) && CommitAllowed(s, pid) && q in s.procs && q != pid
    requires var b := s.batches[s.procs[pid].id];
      && row.claim == b.claim && row.actor == b.actor && row.revision == b.revision && row.epoch == b.epoch
      && row.token == b.token
    ensures WorkerOk(up, s.creds.conns, s.batches[s.procs[pid].id := row], s.procs[q])
  {
    assert WorkerOk(up, s.creds.conns, s.batches, s.procs[q]) && !Rivals(s.procs[pid], s.procs[q]);
  }

  lemma CommitKeeps(up: Upstream, s: State, pid: Pid, delay: nat)
    requires DiscoveryInv(up, s)
    ensures DiscoveryInv(up, BatchCommit(s, pid, delay))
  {
    var t := BatchCommit(s, pid, delay);
    EndKeeps(up, s, pid);
    if t.batches != s.batches {
      var p := s.procs[pid];
      CommitExtends(up, s, pid, t.batches[p.id]);
      forall id | id in t.batches ensures BatchOk(up, t.creds.conns, t.batches[id]) {
        assert BatchOk(up, s.creds.conns, s.batches[id]);
      }
      forall q | q in t.procs ensures WorkerOk(up, t.creds.conns, t.batches, t.procs[q]) {
        OthersAreFenced(up, s, pid, t.batches[p.id], q);
      }
      forall q1, q2 | q1 in t.procs && q2 in t.procs && q1 != q2 ensures !Rivals(t.procs[q1], t.procs[q2]) {
        assert !Rivals(s.procs[q1], s.procs[q2]);
      }
    }
  }

  // ---- every run ----

  ghost predicate Inv(up: Upstream, s: State) {
    DiscoveryInv(up, s) && CredentialSafety.CredInv(s) && SecretSafety.SecretInv(false, s)
  }

  lemma BatchStepKeeps(up: Upstream, s: State, pid: Pid, a: BatchAction)
    requires DiscoveryInv(up, s)
    ensures DiscoveryInv(up, ApplyBatch(up, s, pid, a))
  {
    match a {
      case DoBatchCreate(id, actor) => CreateKeeps(up, s, id, actor);
      case DoBatchClaim(id) => ClaimKeeps(up, s, pid, id);
      case DoBatchReadBack => ReadBackKeeps(up, s, pid);
      case DoBatchCredential => CredentialKeeps(up, s, pid);
      case DoBatchPage(failed) => PageKeeps(up, s, pid, failed);
      case DoBatchCommit(delay) => CommitKeeps(up, s, pid, delay);
      case DoBatchDefer(delay) => DeferKeeps(up, s, pid, delay);
    }
  }

  lemma StepKeepsInv(up: Upstream, s: State, a: Action)
    requires Inv(up, s)
    ensures Inv(up, Apply(up, s, a))
  {
    var t := Apply(up, s, a);
    CredentialSafety.StepKeepsInv(up, s, a);
    SecretSafety.StepKeepsInv(false, up, s, a);
    match a {
      case Tick(seconds) => ElsewhereKeeps(up, s, t, 0);
      case Crash(pid) => ElsewhereKeeps(up, s, t, pid);
      case LoginStep(pid, login) =>
        LoginElsewhere(s, pid, login);
        ElsewhereKeeps(up, s, t, pid);
      case SweepStepOf(pid, sweep) =>
        SweepElsewhere(s, pid, sweep);
        ElsewhereKeeps(up, s, t, pid);
      case RefreshStep(pid, refresh) =>
        RefreshElsewhere(s, pid, refresh);
        ElsewhereKeeps(up, s, t, pid);
      case BatchStep(pid, batch) => BatchStepKeeps(up, s, pid, batch);
    }
  }

  lemma LoginElsewhere(s: State, pid: Pid, a: LoginAction)
    ensures Elsewhere(s, ApplyLogin(s, pid, a), pid)
  {
    hide Elsewhere, ApplyLogin;
    if a.DoStartSeal? || a.DoStartCommit? {
      StartElsewhere(s, pid, a);
    } else if a.DoCallbackBegin? || a.DoCallbackExchange? {
      ExchangeElsewhere(s, pid, a);
    } else if a.DoMarkUnknown? || a.DoStoreToken? {
      StoreElsewhere(s, pid, a);
    } else {
      IdentityElsewhere(s, pid, a);
    }
  }

  lemma {:induction false} RunKeeps(up: Upstream, s: State, actions: seq<Action>)
    requires Inv(up, s)
    ensures Inv(up, Run(up, s, actions))
    decreases |actions|
  {
    if actions != [] {
      StepKeepsInv(up, s, actions[0]);
      RunKeeps(up, Apply(up, s, actions[0]), actions[1..]);
    }
  }

  /** In every reachable state the repositories stored for a batch are exactly those of the pages
      before its cursor, and of the whole listing once it is complete, all as seen by the one access
      token that the batch's (revision, access_epoch) names. */
  lemma {:induction false} BatchHoldsItsPages(up: Upstream, actions: seq<Action>, id: string)
    requires id in Run(up, Init, actions).batches
    ensures Ingested(up, Run(up, Init, actions).batches[id])
  {
    RunKeeps(up, Init, actions);
    var s := Run(up, Init, actions);
    assert BatchOk(up, s.creds.conns, s.batches[id]);
  }

  /** A commit that changes a batch finds the account's connection still at the batch's revision and epoch, and
      what it writes was fetched with the access reference that connection holds. */
  lemma {:induction false} CommittedWithOwnToken(up: Upstream, actions: seq<Action>, pid: Pid, delay: nat)
    requires var s := Run(up, Init, actions);
      pid in s.procs && s.procs[pid].Fetching? && BatchCommit(s, pid, delay).batches != s.batches
    ensures var s := Run(up, Init, actions); var p := s.procs[pid]; var b := s.batches[p.id];
      p.access == b.token && Holds(s.creds.conns, b.actor, b.revision, b.epoch)
      && Serving(s.creds.conns[b.actor]) && s.creds.conns[b.actor].access == b.token
  {
    var s := Run(up, Init, actions);
    RunKeeps(up, Init, actions);
    hide Run;
    CommitFindsToken(up, s, pid, delay);
  }

  lemma {:induction false} CommitFindsToken(up: Upstream, s: State, pid: Pid, delay: nat)
    requires Inv(up, s) && pid in s.procs && s.procs[pid].Fetching? && BatchCommit(s, pid, delay).batches != s.batches
    ensures var p := s.procs[pid];
      p.id in s.batches
      && var b := s.batches[p.id];
      p.access == b.token && Holds(s.creds.conns, b.actor, b.revision, b.epoch)
      && Serving(s.creds.conns[b.actor]) && s.creds.conns[b.actor].access == b.token
  {
    var p := s.procs[pid];
    assert WorkerOk(up, s.creds.conns, s.batches, p) && BatchOk(up, s.creds.conns, s.batches[p.id]);
  }
}
