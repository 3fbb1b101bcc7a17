/** The invariants of the login, session and credential protocol as invariants of the database object. */
module AccessService {
  import opened AccessModel
  import opened AccessDatabase
  import opened Text
  import DiscoverySafety
  import LoginSafety
  import SecretSafety

  /** What the safety modules keep: of the logins, the secrets, the credentials and the batches. `timely` adds
      that no live secret is destroyed. */
  ghost predicate Sound(timely: bool, up: Upstream, s: State) {
    LoginSafety.LoginInv(s.login) && DiscoverySafety.Inv(up, s) && SecretSafety.SecretInv(timely, s)
  }

  lemma {:induction false} StartsSound(timely: bool, up: Upstream)
    ensures Sound(timely, up, Init)
  {
  }

  lemma {:induction false} StepKeeps(timely: bool, up: Upstream, s: State, a: Action)
    requires Sound(timely, up, s) && (timely ==> SecretSafety.StoresInTime(s, Apply(up, s, a)))
    ensures Sound(timely, up, Apply(up, s, a))
  {
    hide LoginSafety.LoginInv, DiscoverySafety.Inv, SecretSafety.SecretInv, Apply;
    LoginSafety.StepKeepsInv(up, s, a);
    DiscoverySafety.StepKeepsInv(up, s, a);
    SecretSafety.StepKeepsInv(timely, up, s, a);
  }

  lemma {:induction false} RunIsSound(timely: bool, up: Upstream, s: State, actions: seq<Action>)
    requires Sound(timely, up, s) && (timely ==> SecretSafety.TimelyRun(up, s, actions))
    ensures Sound(timely, up, Run(up, s, actions))
    decreases |actions|
  {
    hide Sound, Apply;
    if actions != [] {
      StepKeeps(timely, up, s, actions[0]);
      RunIsSound(timely, up, Apply(up, s, actions[0]), actions[1..]);
    }
  }

  /** In every reachable state all four hold, the part about destroyed secrets if the run is timely. */
  lemma {:induction false} ReachableIsSound(timely: bool, up: Upstream, actions: seq<Action>)
    requires timely ==> SecretSafety.TimelyRun(up, Init, actions)
    ensures Sound(timely, up, Run(up, Init, actions))
  {
    StartsSound(timely, up);
    RunIsSound(timely, up, Init, actions);
  }

  lemma {:induction false} SweptKeeps(timely: bool, up: Upstream, s: State, pid: Pid)
    requires Sound(timely, up, s)
    ensures Sound(timely, up, Swept(s, pid))
    decreases if pid in s.procs && s.procs[pid].Sweep? then |s.procs[pid].ops| + 1 else 0
  {
    hide LoginSafety.LoginInv, DiscoverySafety.Inv, SecretSafety.SecretInv;
    if pid in s.procs && s.procs[pid].Sweep? {
      var a := SweepStepOf(pid, DoSweepStep);
      LoginSafety.StepKeepsInv(up, s, a);
      DiscoverySafety.StepKeepsInv(up, s, a);
      SecretSafety.SweepStepKeeps(timely, s, pid, DoSweepStep);
      SweptKeeps(timely, up, SweepStep(s, pid), pid);
    }
  }

  // A transaction the database object has a method for, on behalf of an operation in flight.
  datatype Request =
    | Start(lost: bool)
    | BeginCallback(key: AttemptKey, reply: CodeReply)
    | StoreExchange(lost: bool)
    | Confirm(grant: Grant, disabled: bool, lost: bool)
    | Logout(hash: string)
    | ClaimRefresh
    | CommitRefresh(revision: string, accessExpires: Option<nat>, refreshExpires: Option<nat>, lost: bool)
    | GiveUpRefresh
    | Reject(actor: Actor, revision: string, epoch: nat)
    | ClaimBatch(id: string)
    | CommitBatch(delay: nat)
    | DeferBatch(delay: nat)

  /** The operation has come to this transaction. */
  predicate Ready(s: State, pid: Pid, r: Request) {
    match r
    case Start(_) => pid in s.procs && s.procs[pid].StartSealed?
    case BeginCallback(_, _) => pid !in s.procs
    case StoreExchange(_) => pid in s.procs && s.procs[pid].TokenSealed?
    case Confirm(grant, _, _) => pid in s.procs && s.procs[pid].ConfirmSealed? && grant.hash !in s.login.sessions
    case Logout(_) => true
    case ClaimRefresh => pid in s.procs && s.procs[pid].RefreshReady?
    case CommitRefresh(_, _, _, _) => pid in s.procs && s.procs[pid].RefreshSealed?
    case GiveUpRefresh => pid in s.procs && s.procs[pid].RefreshFailed?
    case Reject(_, _, _) => true
    case ClaimBatch(_) => pid !in s.procs
    case CommitBatch(_) => pid in s.procs && s.procs[pid].Fetching? && s.procs[pid].pages > 0
    case DeferBatch(_) => pid in s.procs && s.procs[pid].Deferring?
  }

  function ActionOf(pid: Pid, r: Request): Action {
    match r
    case Start(lost) => LoginStep(pid, DoStartCommit(lost))
    case BeginCallback(key, reply) => LoginStep(pid, DoCallbackBegin(key, reply))
    case StoreExchange(lost) => LoginStep(pid, DoStoreToken(lost))
    case Confirm(grant, disabled, lost) => LoginStep(pid, DoConfirmCommit(grant, disabled, lost))
    case Logout(hash) => LoginStep(pid, DoLogout(hash))
    case ClaimRefresh => RefreshStep(pid, DoRefreshClaim)
    case CommitRefresh(revision, accessExpires, refreshExpires, lost) =>
      RefreshStep(pid, DoRefreshCommit(revision, accessExpires, refreshExpires, lost))
    case GiveUpRefresh => RefreshStep(pid, DoRefreshGiveUp)
    case Reject(actor, revision, epoch) => RefreshStep(pid, DoRejectCredential(actor, revision, epoch))
    case ClaimBatch(id) => BatchStep(pid, DoBatchClaim(id))
    case CommitBatch(delay) => BatchStep(pid, DoBatchCommit(delay))
    case DeferBatch(delay) => BatchStep(pid, DoBatchDefer(delay))
  }

  predicate OfLogin(r: Request) {
    r.Start? || r.BeginCallback? || r.StoreExchange? || r.Confirm? || r.Logout?
  }

  predicate OfBatch(r: Request) {
    r.ClaimBatch? || r.CommitBatch? || r.DeferBatch?
  }

  method PerformLogin(db: Database, pid: Pid, r: Request, ghost up: Upstream)
    requires OfLogin(r) && Ready(db.View(), pid, r)
    modifies db
    ensures db.View() == Apply(up, old(db.View()), ActionOf(pid, r))
  {
    hide StartCommit, CallbackBegin, StoreToken, ConfirmCommit, LoggedOut, ApplySweep, ApplyRefresh, ApplyBatch;
    match r {
      case Start(lost) => db.Start(pid, lost);
      case BeginCallback(key, reply) => db.BeginCallback(pid, key, reply);
      case StoreExchange(lost) => db.StoreExchange(pid, lost);
      case Confirm(grant, disabled, lost) => db.Confirm(pid, grant, disabled, lost);
      case Logout(hash) => db.Logout(hash);
    }
  }

  method PerformBatch(db: Database, pid: Pid, r: Request, ghost up: Upstream)
    requires OfBatch(r) && Ready(db.View(), pid, r)
    modifies db
    ensures db.View() == Apply(up, old(db.View()), ActionOf(pid, r))
  {
    hide BatchClaim, BatchCommit, BatchDefer, ApplyLogin, ApplySweep, ApplyRefresh;
    match r {
      case ClaimBatch(id) => var _ := db.ClaimBatch(pid, id);
      case CommitBatch(delay) => db.CommitBatch(pid, delay);
      case DeferBatch(delay) => db.DeferBatch(pid, delay);
    }
  }

  method PerformRefresh(db: Database, pid: Pid, r: Request, ghost up: Upstream)
    requires !OfLogin(r) && !OfBatch(r) && Ready(db.View(), pid, r)
    modifies db
    ensures db.View() == Apply(up, old(db.View()), ActionOf(pid, r))
  {
    hide RefreshClaim, RefreshCommit, RefreshGiveUp, RejectCredential, ApplyLogin, ApplySweep, ApplyBatch;
    match r {
      case ClaimRefresh => db.ClaimRefresh(pid);
      case CommitRefresh(revision, accessExpires, refreshExpires, lost) =>
        db.CommitRefresh(pid, revision, accessExpires, refreshExpires, lost);
      case GiveUpRefresh => db.GiveUpRefresh(pid);
      case Reject(actor, revision, epoch) => db.Reject(actor, revision, epoch);
    }
  }

  /** One transaction on the object is one action of the state machine. */
  method Perform(db: Database, pid: Pid, r: Request, ghost up: Upstream)
    requires Ready(db.View(), pid, r)
    modifies db
    ensures db.View() == Apply(up, old(db.View()), ActionOf(pid, r))
  {
    if OfLogin(r) {
      PerformLogin(db, pid, r, up);
    } else if OfBatch(r) {
      PerformBatch(db, pid, r, up);
    } else {
      PerformRefresh(db, pid, r, up);
    }
  }

  /** Every transaction keeps the object sound. */
  method Serve(db: Database, pid: Pid, r: Request, ghost timely: bool, ghost up: Upstream)
    requires Ready(db.View(), pid, r) && Sound(timely, up, db.View())
    requires timely ==> SecretSafety.StoresInTime(db.View(), Apply(up, db.View(), ActionOf(pid, r)))
    modifies db
    ensures db.View() == Apply(up, old(db.View()), ActionOf(pid, r)) && Sound(timely, up, db.View())
  {
    StepKeeps(timely, up, db.View(), ActionOf(pid, r));
    Perform(db, pid, r, up);
  }

  /** So does a whole sweep. */
  method Sweep(db: Database, pid: Pid, ghost timely: bool, ghost up: Upstream)
    requires pid in db.procs && db.procs[pid].Sweep? && Sound(timely, up, db.View())
    modifies db
    ensures Sound(timely, up, db.View())
  {
    SweptKeeps(timely, up, db.View(), pid);
    db.RunSweep(pid);
  }
}
