/** The transactions of internal/access as they run: an object holding the tables, whose methods read
    rows, branch and update them. Each method is one atomic step of the state machine in AccessModel;
    AccessService states what they keep. */
module AccessDatabase {
  import opened AccessModel
  import opened Text
  import DiscoverySafety

  method PlanRow(key: AttemptKey, row: Attempt) returns (ops: seq<SweepOp>)
    ensures ops == RowOps(key, row)
  {
    ops := [];
    if row.material != "" {
      ops := [Destroy(row.material), ClearMaterial(key, row.material)];
    }
    if row.token != "" && !row.state.IdentityPending? {
      ops := ops + [Destroy(row.token), ClearToken(key, row.token)];
    }
  }

  lemma {:induction false} PlanExtends(attempts: map<AttemptKey, Attempt>, keys: seq<AttemptKey>, i: nat, ops: seq<SweepOp>)
    requires (forall k | k in keys :: k in attempts) && i < |keys|
    ensures ops + SweepOps(attempts, keys[i..])
         == (ops + RowOps(keys[i], attempts[keys[i]])) + SweepOps(attempts, keys[i + 1..])
  {
    assert keys[i..][0] == keys[i] && keys[i..][1..] == keys[i + 1..];
    assert SweepOps(attempts, keys[i..]) == RowOps(keys[i], attempts[keys[i]]) + SweepOps(attempts, keys[i + 1..]);
  }

  /** The plan of `maintain`: the loop over the selected rows that lists what to destroy and clear. */
  method PlanSweep(attempts: map<AttemptKey, Attempt>, keys: seq<AttemptKey>) returns (ops: seq<SweepOp>)
    requires forall k | k in keys :: k in attempts
    ensures ops == SweepOps(attempts, keys)
  {
    ops := [];
    var i := 0;
    assert keys[0..] == keys;
    while i < |keys|
      invariant 0 <= i <= |keys|
      invariant ops + SweepOps(attempts, keys[i..]) == SweepOps(attempts, keys)
    {
      var rowOps := PlanRow(keys[i], attempts[keys[i]]);
      PlanExtends(attempts, keys, i, ops);
      ops := ops + rowOps;
      i := i + 1;
    }
  }

  /** The inserts of one discovery commit, one row after the other. */
  method UpsertAll(repos: map<int, Repo>, items: seq<Repo>) returns (result: map<int, Repo>)
    ensures result == Upserts(repos, items)
  {
    result := repos;
    var i := 0;
    while i < |items|
      invariant 0 <= i <= |items|
      invariant Upserts(result, items[i..]) == Upserts(repos, items)
    {
      assert items[i..][0] == items[i] && items[i..][1..] == items[i + 1..];
      result := result[items[i].id := items[i]];
      i := i + 1;
    }
  }

  /** The page loop of RunOne: at most two pages, up to the end of the listing or the first failed request.
      What it collects is a stretch of the token's chain of pages. */
  method FetchPages(up: Upstream, access: Ref, start: nat, failed: set<nat>)
    returns (found: seq<Repo>, next: nat, pages: nat)
    ensures pages <= 2 && found == DiscoverySafety.ItemsFrom(up, access, start, pages)
    ensures next == DiscoverySafety.PageFrom(up, access, start, pages)
    ensures pages == 2 || next == 0 || pages in failed
  {
    found, next, pages := [], start, 0;
    while pages < 2 && next > 0
      invariant pages <= 2 && found == DiscoverySafety.ItemsFrom(up, access, start, pages)
      invariant next == DiscoverySafety.PageFrom(up, access, start, pages)
    {
      if pages in failed {
        break;
      }
      var page := up(access, next);
      found := found + page.items;
      next := page.next;
      pages := pages + 1;
    }
  }

  /** What destroying and clearing a whole list amounts to. */
  function Swept(s: State, pid: Pid): State
    decreases if pid in s.procs && s.procs[pid].Sweep? then |s.procs[pid].ops| + 1 else 0
  {
    if pid !in s.procs || !s.procs[pid].Sweep? then s else Swept(SweepStep(s, pid), pid)
  }

  class Database {
    var now: nat
    var bindings: map<string, Binding>
    var attempts: map<AttemptKey, Attempt>
    var sessions: map<string, Session>
    var versions: map<Ref, Version>
    var conns: map<Actor, Connection>
    var batches: map<string, Batch>
    var procs: map<Pid, Proc>
    ghost var claimed: set<Ref>
    ghost var presented: seq<Ref>

    ghost function View(): State
      reads this
    {
      State(now, Logins(bindings, attempts, sessions), Credentials(versions, conns, claimed, presented), batches, procs)
    }

    constructor ()
      ensures View() == Init
    {
      now := 0;
      bindings, attempts, sessions := map[], map[], map[];
      versions, conns, claimed, presented := map[], map[], {}, [];
      batches, procs := map[], map[];
    }

    /** The reads and guards of Start's transaction; None is a rollback. */
    method StartGuards(p: Proc) returns (row: Option<Attempt>, b: Binding)
      requires p.StartSealed?
      ensures row.Some? <==> StartAllowed(View(), p)
      ensures row.Some? ==> StartBinding(View(), p) == Some(b) && row.value == StartRow(View(), p, b)
    {
      var key := p.key;
      row, b := None, Binding(0, 0, now + BINDING_LIFE);
      if p.newBinding {
        if key.binding in bindings { return; }
      } else {
        if key.binding !in bindings || bindings[key.binding].expiresAt <= now { return; }
        b := bindings[key.binding];
      }
      if key in attempts { return; }
      var actor: Option<Actor>, revision: Option<string> := None, None;
      if p.purpose.Reconnect? {
        if p.session.None? || p.session.value !in sessions { return; }
        var current := sessions[p.session.value];
        if current.revoked || current.expiresAt <= now || current.lastActive + IDLE_LIMIT <= now
           || current.generation != b.identity || current.actor !in conns { return; }
        actor, revision := Some(current.actor), Some(conns[current.actor].revision);
      }
      var ofBrowser := |set k | k in attempts && k.binding == key.binding && attempts[k].createdAt + 60 > now|;
      if ofBrowser >= 5 { return; }
      if actor.Some? {
        var ofAccount := |set k | k in attempts && attempts[k].actor == Some(actor.value) && attempts[k].createdAt + 60 > now|;
        if ofAccount >= 10 { return; }
      }
      if p.purpose.Switch? { return; }
      row := Some(Attempt(p.purpose, actor, actor, revision, b.identity, b.attempt + 1, Pending, p.material, "",
                          now, now + ATTEMPT_LIFE));
    }

    /** Start's transaction: supersede what is live, bump the generation, insert the attempt. */
    method Start(pid: Pid, lost: bool)
      requires pid in procs && procs[pid].StartSealed?
      modifies this
      ensures View() == StartCommit(old(View()), pid, lost)
    {
      var p := procs[pid];
      var row, b := StartGuards(p);
      if row.None? {
        procs := procs[pid := Sweep(Discards([p.material]))];
        return;
      }
      procs := procs - {pid};
      if lost {
        return;
      }
      attempts := SupersedeLive(attempts, p.key.binding, None);
      bindings := bindings[p.key.binding := b.(attempt := b.attempt + 1)];
      attempts := attempts[p.key := row.value];
    }

    /** The first transaction of the callback. */
    method BeginCallback(pid: Pid, key: AttemptKey, reply: CodeReply)
      requires pid !in procs
      modifies this
      ensures View() == CallbackBegin(old(View()), pid, key, reply)
    {
      if key.binding !in bindings || bindings[key.binding].expiresAt <= now || key !in attempts {
        return;
      }
      var b, row := bindings[key.binding], attempts[key];
      if !row.state.Pending? || b.identity != row.identity || b.attempt != row.attempt || row.expiresAt <= now {
        return;
      }
      if !reply.Code? {
        var terminal := Unknown;
        if reply.AccessDenied? {
          terminal := Cancelled;
        }
        attempts := attempts[key := row.(state := terminal)];
        return;
      }
      attempts := attempts[key := row.(state := Exchanging)];
      procs := procs[pid := Exchange(key, row.material)];
    }

    /** The guarded update that stores the exchange result. */
    method StoreExchange(pid: Pid, lost: bool)
      requires pid in procs && procs[pid].TokenSealed?
      modifies this
      ensures View() == StoreToken(old(View()), pid, lost)
    {
      var p := procs[pid];
      if lost {
        procs := procs - {pid};
      } else if p.key !in attempts || !attempts[p.key].state.Exchanging? || attempts[p.key].expiresAt <= now {
        procs := procs[pid := Sweep(Discards([p.token]))];
      } else {
        attempts := attempts[p.key := attempts[p.key].(state := IdentityPending, token := p.token)];
        procs := procs[pid := Identify(p.key, p.renewable)];
      }
    }

    /** The guards of the confirmation under the binding and attempt locks. */
    method ConfirmGuards(key: AttemptKey) returns (ok: bool)
      ensures ok <==> ConfirmAllowed(View().login, now, key)
    {
      if key.binding !in bindings || bindings[key.binding].expiresAt <= now || key !in attempts {
        return false;
      }
      var b, row := bindings[key.binding], attempts[key];
      return row.state.IdentityPending? && b.identity == row.identity && b.attempt == row.attempt && row.expiresAt > now;
    }

    /** The connection row against the attempt: what its revision and commit time forbid. */
    method CredentialIsNewer(actor: Actor, row: Attempt) returns (newer: bool)
      ensures newer <==> Stale(View(), actor, row)
    {
      var current, committed := "", 0;
      if actor in conns {
        current, committed := conns[actor].revision, conns[actor].committedAt;
      }
      newer := (row.purpose.Reconnect? && row.expectedRevision != Some(current))
        || (row.purpose.Login? && committed > row.createdAt);
    }

    /** Next generation, all sessions of the browser revoked, the new one inserted, the attempt closed. */
    method GrantSession(key: AttemptKey, actor: Actor, hash: string)
      requires ConfirmAllowed(View().login, now, key)
      modifies this`bindings, this`sessions, this`attempts
      ensures View().login == Granted(old(View()).login, now, key, actor, hash)
    {
      var b := bindings[key.binding];
      bindings := bindings[key.binding := b.(identity := b.identity + 1)];
      sessions := RevokeAll(sessions, key.binding);
      sessions := sessions[hash := Session(actor, key.binding, b.identity + 1, now + SESSION_LIFE, now, false, key)];
      attempts := attempts[key := attempts[key].(state := Confirmed, actor := Some(actor))];
    }

    /** The confirmation's transaction: connection, generation, sessions, attempt. */
    method Confirm(pid: Pid, grant: Grant, disabled: bool, lost: bool)
      requires pid in procs && procs[pid].ConfirmSealed?
      requires grant.hash !in sessions
      modifies this
      ensures View() == ConfirmCommit(old(View()), pid, grant, disabled, lost)
    {
      var p := procs[pid];
      var ok := ConfirmGuards(p.key);
      if !ok || disabled {
        procs := procs[pid := Sweep(Discards([p.access, p.refresh]))];
        return;
      }
      var row := attempts[p.key];
      var newer := CredentialIsNewer(p.actor, row);
      if newer {
        procs := procs[pid := Sweep(Discards([p.access, p.refresh]))];
        if !lost {
          attempts := attempts[p.key := row.(state := Superseded)];
        }
        return;
      }
      procs := procs - {pid};
      if lost {
        return;
      }
      var epoch := 1;
      if p.actor in conns {
        epoch := conns[p.actor].epoch + 1;
      }
      conns := conns[p.actor := Connection(grant.revision, epoch, p.access, p.refresh, grant.accessExpires,
                                           grant.refreshExpires, Connected, Idle, now)];
      GrantSession(p.key, p.actor, grant.hash);
    }

    method Logout(hash: string)
      modifies this
      ensures View() == old(View()).(login := LoggedOut(old(View()).login, hash))
    {
      if hash !in sessions || sessions[hash].binding !in bindings {
        return;
      }
      var session := sessions[hash];
      var b := bindings[session.binding];
      if !session.revoked {
        sessions := sessions[hash := session.(revoked := true)];
        if b.identity == session.generation {
          bindings := bindings[session.binding := b.(identity := b.identity + 1, attempt := b.attempt + 1)];
          attempts := SupersedeLive(attempts, session.binding, Some(session.generation));
        }
      }
    }

    /** The collectors' loop over a listed plan, here without anything running in between. */
    method RunSweep(pid: Pid)
      requires pid in procs && procs[pid].Sweep?
      modifies this
      ensures View() == Swept(old(View()), pid)
    {
      var ops := procs[pid].ops;
      while ops != []
        invariant pid in procs && procs[pid] == Sweep(ops)
        invariant Swept(View(), pid) == Swept(old(View()), pid)
        decreases |ops|
      {
        ghost var before := View();
        match ops[0] {
          case Destroy(ref) =>
            if ref in versions {
              versions := versions[ref := versions[ref].(destroyed := true)];
            }
          case ClearMaterial(key, ref) =>
            if key in attempts && attempts[key].material == ref {
              attempts := attempts[key := attempts[key].(material := "")];
            }
          case ClearToken(key, ref) =>
            if key in attempts && attempts[key].token == ref {
              attempts := attempts[key := attempts[key].(token := "")];
            }
        }
        ops := ops[1..];
        procs := procs[pid := Sweep(ops)];
        assert View() == SweepStep(before, pid);
      }
      procs := procs - {pid};
    }

    method ClaimRefresh(pid: Pid)
      requires pid in procs && procs[pid].RefreshReady?
      modifies this
      ensures View() == RefreshClaim(old(View()), pid)
    {
      var p := procs[pid];
      if p.actor !in conns || conns[p.actor].revision != p.revision || conns[p.actor].epoch != p.epoch
         || !conns[p.actor].refreshState.Idle? {
        procs := procs - {pid};
        return;
      }
      conns := conns[p.actor := conns[p.actor].(refreshState := Claimed)];
      claimed := claimed + {p.refresh};
      procs := procs[pid := RefreshClaimed(p.actor, p.revision, p.epoch, p.refresh)];
    }

    method CommitRefresh(pid: Pid, revision: string, accessExpires: Option<nat>, refreshExpires: Option<nat>, lost: bool)
      requires pid in procs && procs[pid].RefreshSealed?
      modifies this
      ensures View() == RefreshCommit(old(View()), pid, revision, accessExpires, refreshExpires, lost)
    {
      var p := procs[pid];
      ghost var s := View();
      if lost {
        procs := procs - {pid};
        assert View() == End(s, pid);
        return;
      }
      if p.actor !in conns || conns[p.actor].revision != p.revision || conns[p.actor].epoch != p.epoch
         || !conns[p.actor].refreshState.Claimed? {
        procs := procs[pid := Sweep(Discards([p.access, p.refresh]))];
        assert View() == Discard(s, pid, [p.access, p.refresh]);
        return;
      }
      conns := conns[p.actor := Connection(revision, p.epoch + 1, p.access, p.refresh, accessExpires, refreshExpires,
                                           Connected, Idle, now)];
      procs := procs - {pid};
    }

    /** refreshUnknown: only the row that is still claimed for this credential. */
    method GiveUpRefresh(pid: Pid)
      requires pid in procs && procs[pid].RefreshFailed?
      modifies this
      ensures View() == RefreshGiveUp(old(View()), pid)
    {
      var p := procs[pid];
      procs := procs[pid := Sweep(Discards(p.leftovers))];
      if p.actor in conns && conns[p.actor].revision == p.revision && conns[p.actor].epoch == p.epoch
         && conns[p.actor].refreshState.Claimed? {
        conns := conns[p.actor := conns[p.actor].(refreshState := RefreshUnknown, status := StatusUnknown)];
      }
    }

    /** rejectCredential. */
    method Reject(actor: Actor, revision: string, epoch: nat)
      modifies this`conns
      ensures View() == RejectCredential(old(View()), actor, revision, epoch)
    {
      if actor in conns && conns[actor].revision == revision && conns[actor].epoch == epoch {
        conns := conns[actor := conns[actor].(status := Missing, epoch := epoch + 1)];
      }
    }

    /** The worker's lease on a batch that is due and whose credential is still the connection's. */
    method ClaimBatch(pid: Pid, id: string) returns (claimed: bool)
      requires pid !in procs
      modifies this
      ensures View() == BatchClaim(old(View()), pid, id)
      ensures claimed <==> pid in procs
    {
      if id !in batches {
        return false;
      }
      var b := batches[id];
      if b.complete || b.expiresAt <= now || b.nextRun > now || (b.lease.Some? && b.lease.value >= now) {
        return false;
      }
      if b.actor !in conns || b.revision != conns[b.actor].revision || b.epoch != conns[b.actor].epoch {
        return false;
      }
      batches := batches[id := b.(claim := b.claim + 1, lease := Some(now + LEASE))];
      procs := procs[pid := BatchClaimed(id, b.claim + 1)];
      return true;
    }

    /** deferBatch: a later claim of the batch is left alone. */
    method DeferBatch(pid: Pid, delay: nat)
      requires pid in procs && procs[pid].Deferring?
      modifies this
      ensures View() == BatchDefer(old(View()), pid, delay)
    {
      var p := procs[pid];
      procs := procs - {pid};
      if p.id in batches && batches[p.id].claim == p.claim {
        batches := batches[p.id := batches[p.id].(lease := None, nextRun := now + delay + 1)];
      }
    }

    method CommitBatch(pid: Pid, delay: nat)
      requires pid in procs && procs[pid].Fetching? && procs[pid].pages > 0
      modifies this
      ensures View() == BatchCommit(old(View()), pid, delay)
    {
      var p := procs[pid];
      var b := p.batch;
      procs := procs - {pid};
      if b.actor !in conns || conns[b.actor].revision != b.revision || conns[b.actor].epoch != b.epoch
         || !conns[b.actor].status.Connected? || !conns[b.actor].refreshState.Idle? {
        return;
      }
      if p.id !in batches || batches[p.id].expiresAt <= now || batches[p.id].claim != b.claim {
        return;
      }
      var row := batches[p.id];
      var repos := UpsertAll(row.repos, p.found);
      var next := p.next;
      var complete := next == 0;
      if complete {
        next := b.cursor;
      }
      batches := batches[p.id := row.(repos := repos, cursor := next, complete := complete, hadSuccess := true,
                                      lease := None, nextRun := now + delay + 1)];
    }
  }
}
