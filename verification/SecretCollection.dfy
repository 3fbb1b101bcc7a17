/** What the secret collectors get done: a plan that is carried out destroys and clears exactly what the selected rows
    hold, and no version is forgotten by both collectors. */
module SecretCollection {
  import opened AccessModel
  import opened Text

  // ---- carrying out a plan ----

  function Steps(pid: Pid, n: nat): seq<Action> {
    if n == 0 then [] else [SweepStepOf(pid, DoSweepStep)] + Steps(pid, n - 1)
  }

  predicate VersionAfter(v: Version, v': Version, ref: Ref, ops: seq<SweepOp>) {
    v' == v.(destroyed := v.destroyed || Destroy(ref) in ops)
  }

  predicate RowAfter(row: Attempt, row': Attempt, key: AttemptKey, ops: seq<SweepOp>) {
    row' == row.(material := if ClearMaterial(key, row.material) in ops then "" else row.material,
                 token := if ClearToken(key, row.token) in ops then "" else row.token)
  }

  ghost predicate VersionsAfter(v: map<Ref, Version>, v': map<Ref, Version>, ops: seq<SweepOp>) {
    v'.Keys == v.Keys && forall r {:trigger VersionAfter(v[r], v'[r], r, ops)} | r in v :: VersionAfter(v[r], v'[r], r, ops)
  }

  ghost predicate RowsAfter(a: map<AttemptKey, Attempt>, a': map<AttemptKey, Attempt>, ops: seq<SweepOp>) {
    a'.Keys == a.Keys && forall k {:trigger RowAfter(a[k], a'[k], k, ops)} | k in a :: RowAfter(a[k], a'[k], k, ops)
  }

  /** Exactly the listed versions are destroyed and the listed columns cleared. */
  ghost predicate CarriedOut(s: State, t: State, ops: seq<SweepOp>) {
    && VersionsAfter(s.creds.versions, t.creds.versions, ops)
    && RowsAfter(s.login.attempts, t.login.attempts, ops)
    && t == s.(creds := s.creds.(versions := t.creds.versions), login := s.login.(attempts := t.login.attempts),
               procs := t.procs)
  }

  lemma {:induction false} OneDestroyed(s: State, op: SweepOp)
    ensures VersionsAfter(s.creds.versions, Perform(s, op).creds.versions, [op])
  {
  }

  lemma {:induction false} OneCleared(s: State, op: SweepOp)
    ensures RowsAfter(s.login.attempts, Perform(s, op).login.attempts, [op])
  {
    if op.Destroy? {
      assert Perform(s, op).login == s.login;
    }
  }

  lemma {:induction false} OneCarriedOut(s: State, op: SweepOp)
    ensures var t := Perform(s, op); CarriedOut(s, t, [op]) && t.procs == s.procs
  {
    OneDestroyed(s, op);
    OneCleared(s, op);
    hide VersionsAfter, RowsAfter;
  }

  lemma {:induction false} CarriedOutBoth(s: State, t: State, u: State, op: SweepOp, rest: seq<SweepOp>)
    requires CarriedOut(s, t, [op]) && CarriedOut(t, u, rest)
    ensures CarriedOut(s, u, [op] + rest)
  {
    forall r | r in s.creds.versions
      ensures VersionAfter(s.creds.versions[r], u.creds.versions[r], r, [op] + rest)
    {
      assert VersionAfter(s.creds.versions[r], t.creds.versions[r], r, [op]);
      assert VersionAfter(t.creds.versions[r], u.creds.versions[r], r, rest);
    }
    forall k | k in s.login.attempts
      ensures RowAfter(s.login.attempts[k], u.login.attempts[k], k, [op] + rest)
    {
      assert RowAfter(s.login.attempts[k], t.login.attempts[k], k, [op]);
      assert RowAfter(t.login.attempts[k], u.login.attempts[k], k, rest);
    }
  }

  /** A plan that is carried out to its end. */
  lemma {:induction false} PlanIsCarriedOut(up: Upstream, s: State, pid: Pid, ops: seq<SweepOp>)
    requires pid in s.procs && s.procs[pid] == Sweep(ops)
    ensures var t := Run(up, s, Steps(pid, |ops| + 1)); CarriedOut(s, t, ops) && t.procs == s.procs - {pid}
    decreases |ops|
  {
    hide Run, Apply, Steps;
    RunStep(up, s, pid, |ops|);
    var next := SweepStep(s, pid);
    if ops == [] {
      RunStep(up, next, pid, 0);
      NothingCarriedOut(s, next);
      hide CarriedOut;
    } else {
      FirstCarriedOut(s, pid, ops);
      assert ops == [ops[0]] + ops[1..] && |ops[1..]| + 1 == |ops|;
      hide Perform, SweepStep, CarriedOut;
      PlanIsCarriedOut(up, next, pid, ops[1..]);
      CarriedOutBoth(s, next, Run(up, next, Steps(pid, |ops|)), ops[0], ops[1..]);
    }
  }

  lemma {:induction false} FirstCarriedOut(s: State, pid: Pid, ops: seq<SweepOp>)
    requires pid in s.procs && s.procs[pid] == Sweep(ops) && ops != []
    ensures var t := SweepStep(s, pid);
      CarriedOut(s, t, [ops[0]]) && t.procs == s.procs[pid := Sweep(ops[1..])] && t.procs - {pid} == s.procs - {pid}
  {
    var put := Put(s, pid, Sweep(ops[1..]));
    OneCarriedOut(put, ops[0]);
    hide Perform;
  }

  lemma {:induction false} NothingCarriedOut(s: State, t: State)
    requires t == s.(procs := t.procs)
    ensures CarriedOut(s, t, [])
  {
  }

  lemma {:induction false} RunStep(up: Upstream, s: State, pid: Pid, n: nat)
    ensures Run(up, s, Steps(pid, n + 1)) == Run(up, SweepStep(s, pid), Steps(pid, n))
    ensures Run(up, s, Steps(pid, 0)) == s
  {
    assert Steps(pid, n + 1)[0] == SweepStepOf(pid, DoSweepStep) && Steps(pid, n + 1)[1..] == Steps(pid, n);
    assert Apply(up, s, SweepStepOf(pid, DoSweepStep)) == SweepStep(s, pid);
    hide SweepStep;
  }

  // ---- maintenance ----

  /** A row maintenance takes: its material when the exchange is over, its token when the identity step is. */
  predicate Collectable(row: Attempt) {
    (row.material != "" && row.state !in {Pending, Exchanging})
    || (row.token != "" && row.state !in {IdentityPending, Exchanging})
  }

  /** The versions such a row gives up. */
  predicate GivesUp(row: Attempt, ref: Ref) {
    ref != "" && (ref == row.material || (ref == row.token && row.state != IdentityPending))
  }

  predicate Given(attempts: map<AttemptKey, Attempt>, keys: seq<AttemptKey>, ref: Ref) {
    exists k | k in keys :: k in attempts && GivesUp(attempts[k], ref)
  }

  lemma {:induction false} RowPlan(key: AttemptKey, row: Attempt, op: SweepOp)
    ensures op in RowOps(key, row) <==>
      match op
      case Destroy(ref) => GivesUp(row, ref)
      case ClearMaterial(k, ref) => k == key && ref == row.material && ref != ""
      case ClearToken(k, ref) => k == key && ref == row.token && ref != "" && row.state != IdentityPending
  {
    assert [Destroy(row.material), ClearMaterial(key, row.material)][0] == Destroy(row.material);
    assert [Destroy(row.material), ClearMaterial(key, row.material)][1] == ClearMaterial(key, row.material);
    assert [Destroy(row.token), ClearToken(key, row.token)][0] == Destroy(row.token);
    assert [Destroy(row.token), ClearToken(key, row.token)][1] == ClearToken(key, row.token);
  }

  lemma {:induction false} PlanHolds(attempts: map<AttemptKey, Attempt>, keys: seq<AttemptKey>, op: SweepOp)
    requires forall k | k in keys :: k in attempts
    ensures op in SweepOps(attempts, keys) <==>
      match op
      case Destroy(ref) => Given(attempts, keys, ref)
      case ClearMaterial(k, ref) => k in keys && ref == attempts[k].material && ref != ""
      case ClearToken(k, ref) => k in keys && ref == attempts[k].token && ref != "" && attempts[k].state != IdentityPending
    decreases |keys|
  {
    if keys != [] {
      var row := attempts[keys[0]];
      RowPlan(keys[0], row, op);
      PlanHolds(attempts, keys[1..], op);
      assert forall k :: k in keys <==> k == keys[0] || k in keys[1..];
      hide RowOps;
      if op.Destroy? {
        assert Given(attempts, keys, op.ref) <==> GivesUp(row, op.ref) || Given(attempts, keys[1..], op.ref);
      }
    }
  }

  /** Every selected row loses its material and its token, except a token that still waits for its identity, and every
      version they named is destroyed; no other row and no other version changes. */
  ghost predicate Collected(s: State, t: State, keys: seq<AttemptKey>) {
    && t == s.(creds := s.creds.(versions := t.creds.versions), login := s.login.(attempts := t.login.attempts))
    && t.creds.versions.Keys == s.creds.versions.Keys && t.login.attempts.Keys == s.login.attempts.Keys
    && (forall r | r in s.creds.versions ::
          t.creds.versions[r] == s.creds.versions[r].(
            destroyed := s.creds.versions[r].destroyed || Given(s.login.attempts, keys, r)))
    && (forall k | k in s.login.attempts ::
          t.login.attempts[k] == if k !in keys then s.login.attempts[k] else s.login.attempts[k].(
            material := "", token := if s.login.attempts[k].state == IdentityPending then s.login.attempts[k].token else ""))
  }

  /** Maintenance takes a list of rows exactly when each one is there and collectable, and then collects all of them. */
  lemma {:induction false} MaintenanceCollects(up: Upstream, s: State, pid: Pid, keys: seq<AttemptKey>)
    requires pid !in s.procs
    ensures var t := MaintainSelect(s, pid, keys);
      if forall k | k in keys :: k in s.login.attempts && Collectable(s.login.attempts[k]) then
        && pid in t.procs && t.procs[pid].Sweep?
        && Collected(s, Run(up, t, Steps(pid, |t.procs[pid].ops| + 1)), keys)
      else t == s
  {
    hide Run, Apply, Steps;
    if forall k | k in keys :: k in s.login.attempts && Collectable(s.login.attempts[k]) {
      var ops := SweepOps(s.login.attempts, keys);
      var t := Put(s, pid, Sweep(ops));
      assert MaintainSelect(s, pid, keys) == t;
      PlanIsCarriedOut(up, t, pid, ops);
      var u := Run(up, t, Steps(pid, |ops| + 1));
      assert t.procs - {pid} == s.procs;
      hide SweepOps;
      PlanCollects(s, t, u, keys);
    } else {
      var k :| k in keys && !(k in s.login.attempts && Collectable(s.login.attempts[k]));
      assert k in s.login.attempts ==> !Sweepable(s.login.attempts[k]);
    }
  }

  lemma {:induction false} PlanCollects(s: State, t: State, u: State, keys: seq<AttemptKey>)
    requires forall k | k in keys :: k in s.login.attempts
    requires t == s.(procs := t.procs) && u.procs == s.procs && CarriedOut(t, u, SweepOps(s.login.attempts, keys))
    ensures Collected(s, u, keys)
  {
    var ops := SweepOps(s.login.attempts, keys);
    forall r | r in s.creds.versions
      ensures u.creds.versions[r] == s.creds.versions[r].(
        destroyed := s.creds.versions[r].destroyed || Given(s.login.attempts, keys, r))
    {
      assert VersionAfter(s.creds.versions[r], u.creds.versions[r], r, ops);
      PlanHolds(s.login.attempts, keys, Destroy(r));
      hide SweepOps, Given;
    }
    forall k | k in s.login.attempts
      ensures u.login.attempts[k] == if k !in keys then s.login.attempts[k] else s.login.attempts[k].(
        material := "", token := if s.login.attempts[k].state == IdentityPending then s.login.attempts[k].token else "")
    {
      var row := s.login.attempts[k];
      assert RowAfter(row, u.login.attempts[k], k, ops);
      PlanHolds(s.login.attempts, keys, ClearMaterial(k, row.material));
      PlanHolds(s.login.attempts, keys, ClearToken(k, row.token));
      hide SweepOps;
    }
  }

  // ---- orphans ----

  /** A version nobody refers to, older than a quarter of an hour. */
  ghost predicate Unclaimed(s: State, ref: Ref) {
    && ref in s.creds.versions && !s.creds.versions[ref].destroyed
    && s.creds.versions[ref].createdAt + 15 * 60 < s.now
    && (forall k | k in s.login.attempts :: ref != s.login.attempts[k].material && ref != s.login.attempts[k].token)
    && (forall x | x in s.creds.conns :: ref != s.creds.conns[x].access && ref != s.creds.conns[x].refresh)
  }

  /** The orphan collector takes a list of references exactly when each one is unclaimed, and then destroys exactly those. */
  lemma {:induction false} OrphansAreDestroyed(up: Upstream, s: State, pid: Pid, refs: seq<Ref>)
    requires pid !in s.procs
    ensures var t := OrphanSelect(s, pid, refs);
      if forall r | r in refs :: Unclaimed(s, r) then
        && pid in t.procs && t.procs[pid].Sweep?
        && var u := Run(up, t, Steps(pid, |t.procs[pid].ops| + 1));
        && u == s.(creds := s.creds.(versions := u.creds.versions)) && u.creds.versions.Keys == s.creds.versions.Keys
        && forall r | r in s.creds.versions ::
             u.creds.versions[r] == s.creds.versions[r].(destroyed := s.creds.versions[r].destroyed || (r != "" && r in refs))
      else t == s
  {
    hide Run, Apply, Steps;
    if forall r | r in refs :: Unclaimed(s, r) {
      forall r | r in refs
        ensures Orphan(s, r)
      {
        assert Unclaimed(s, r);
      }
      var ops := Discards(refs);
      var t := Put(s, pid, Sweep(ops));
      assert OrphanSelect(s, pid, refs) == t;
      PlanIsCarriedOut(up, t, pid, ops);
      var u := Run(up, t, Steps(pid, |ops| + 1));
      assert t.procs - {pid} == s.procs;
      hide Discards, Orphan, Unclaimed;
      DiscardsCollect(s, t, u, refs);
    } else {
      var r :| r in refs && !Unclaimed(s, r);
      assert !Orphan(s, r);
    }
  }

  lemma {:induction false} DiscardsAre(refs: seq<Ref>, op: SweepOp)
    ensures op in Discards(refs) <==> op.Destroy? && op.ref != "" && op.ref in refs
    decreases |refs|
  {
    if refs != [] {
      DiscardsAre(refs[1..], op);
      assert forall r :: r in refs <==> r == refs[0] || r in refs[1..];
    }
  }

  lemma {:induction false} DiscardsCollect(s: State, t: State, u: State, refs: seq<Ref>)
    requires t == s.(procs := t.procs) && u.procs == s.procs && CarriedOut(t, u, Discards(refs))
    ensures u == s.(creds := s.creds.(versions := u.creds.versions)) && u.creds.versions.Keys == s.creds.versions.Keys
    ensures forall r | r in s.creds.versions ::
      u.creds.versions[r] == s.creds.versions[r].(destroyed := s.creds.versions[r].destroyed || (r != "" && r in refs))
  {
    var ops := Discards(refs);
    forall r | r in s.creds.versions
      ensures u.creds.versions[r] == s.creds.versions[r].(destroyed := s.creds.versions[r].destroyed || (r != "" && r in refs))
    {
      assert VersionAfter(s.creds.versions[r], u.creds.versions[r], r, ops);
      DiscardsAre(refs, Destroy(r));
    }
    forall k | k in s.login.attempts
      ensures u.login.attempts[k] == s.login.attempts[k]
    {
      var row := s.login.attempts[k];
      assert RowAfter(row, u.login.attempts[k], k, ops);
      DiscardsAre(refs, ClearMaterial(k, row.material));
      DiscardsAre(refs, ClearToken(k, row.token));
    }
    assert u.login.attempts == s.login.attempts;
  }

  // ---- nothing is forgotten ----

  /** A version that is still there after a quarter of an hour is in use by a connection, belongs to an attempt that is
      not over yet, or is taken by one of the two collectors once the expired attempts are marked. */
  lemma {:induction false} NothingIsForgotten(s: State, pid: Pid, ref: Ref)
    requires ref in s.creds.versions && !s.creds.versions[ref].destroyed && s.creds.versions[ref].createdAt + 15 * 60 < s.now
    requires ref != "" && forall x | x in s.creds.conns :: ref != s.creds.conns[x].access && ref != s.creds.conns[x].refresh
    requires forall k | k in s.login.attempts ::
      ref == s.login.attempts[k].material || ref == s.login.attempts[k].token ==> s.login.attempts[k].expiresAt <= s.now
    ensures var t := ApplySweep(s, pid, DoExpire);
      Unclaimed(t, ref)
      || exists k | k in t.login.attempts :: Collectable(t.login.attempts[k]) && GivesUp(t.login.attempts[k], ref)
  {
    var t := ApplySweep(s, pid, DoExpire);
    if k :| k in t.login.attempts && (ref == t.login.attempts[k].material || ref == t.login.attempts[k].token) {
      assert t.login.attempts[k] == ExpireRow(s.login.attempts[k], s.now);
      assert Collectable(t.login.attempts[k]) && GivesUp(t.login.attempts[k], ref);
    }
  }
}
