/** What a refresh or a login leaves to the readers of a credential: which token is served, until when, and when the
    next refresh starts. */
module CredentialAnswers {
  import opened AccessModel
  import opened Text
  import CredentialSafety
  import LoginIdentity
  import SecretSafety

  /** The compare-and-swap finds the row as this operation claimed it. */
  predicate FindsClaim(s: State, p: Proc)
    requires p.RefreshSealed?
  {
    && p.actor in s.creds.conns
    && var c := s.creds.conns[p.actor];
    c.revision == p.revision && c.epoch == p.epoch && c.refreshState == Claimed
  }

  /** A refresh that finds its claim installs exactly what the provider answered; one that does not discards it. */
  lemma RefreshInstalls(s: State, pid: Pid, grant: Grant, lost: bool)
    requires pid in s.procs && s.procs[pid].RefreshSealed?
    ensures var p := s.procs[pid]; var t := RefreshCommit(s, pid, grant.revision, grant.accessExpires, grant.refreshExpires, lost);
      && (if FindsClaim(s, p) && !lost then
            && p.actor in t.creds.conns && LoginIdentity.Installed(t.creds.conns[p.actor], p.access, p.refresh, grant, s.now)
            && t.creds.conns[p.actor].epoch == p.epoch + 1
            && t.creds.conns == s.creds.conns[p.actor := t.creds.conns[p.actor]]
          else t.creds.conns == s.creds.conns)
      && (pid in t.procs <==> !FindsClaim(s, p) && !lost)
      && (pid in t.procs ==>
            t.procs[pid].Sweep? && forall r | r in {p.access, p.refresh} && r != "" :: Destroy(r) in t.procs[pid].ops)
      && t.login == s.login && t.batches == s.batches && t.creds.versions == s.creds.versions
  {
    LoginIdentity.DiscardsBoth(s.procs[pid].access, s.procs[pid].refresh);
  }

  /** The stored access token is about to expire and can be renewed. */
  predicate Due(accessExpires: Option<nat>, refresh: Ref, refreshExpires: Option<nat>, now: nat) {
    && accessExpires.Some? && accessExpires.value <= now + 30
    && refresh != "" && (refreshExpires.None? || now < refreshExpires.value)
  }

  /** A read starts a refresh of the stored reference exactly then. */
  lemma ReadStartsRefresh(s: State, pid: Pid, x: Actor)
    requires pid !in s.procs && x in s.creds.conns
    ensures var c, t := s.creds.conns[x], CredentialRead(s, pid, x);
      if c.status == Connected && c.refreshState == Idle && Due(c.accessExpires, c.refresh, c.refreshExpires, s.now)
      then t == s.(procs := s.procs[pid := RefreshReady(x, c.revision, c.epoch, c.refresh)])
      else t == s
  {
  }

  /** A worker gets the token exactly when the connection serves, it is good for more than half a minute, and its
      secret can be opened. */
  lemma WorkerGetsToken(s: State, pid: Pid)
    requires pid in s.procs && s.procs[pid].BatchRead?
    ensures var b := s.procs[pid].batch; var t := BatchCredential(s, pid);
      && pid in t.procs && t == s.(procs := s.procs[pid := t.procs[pid]])
      && (t.procs[pid].Fetching? || t.procs[pid] == Deferring(s.procs[pid].id, b.claim))
      && (t.procs[pid].Fetching? <==>
            && b.actor in s.creds.conns
            && var c := s.creds.conns[b.actor];
            && c.status == Connected && c.refreshState == Idle && Openable(s, c.access)
            && (c.accessExpires.Some? ==> s.now + 30 < c.accessExpires.value))
      && (t.procs[pid].Fetching? ==>
            t.procs[pid].access == s.creds.conns[b.actor].access && t.procs[pid].credEpoch == s.creds.conns[b.actor].epoch
            && t.procs[pid].batch == b && t.procs[pid].found == [] && t.procs[pid].pages == 0
            && t.procs[pid].next == b.cursor)
  {
  }

  /** As long as the epoch stays, a read goes by what was installed then. */
  lemma {:induction false} InstalledStays(up: Upstream, s: State, x: Actor, grant: Grant, access: Ref, refresh: Ref, at: nat,
                                          later: seq<Action>, pid: Pid)
    requires CredentialSafety.CredInv(s) && SecretSafety.SecretInv(false, s)
    requires x in s.creds.conns && LoginIdentity.Installed(s.creds.conns[x], access, refresh, grant, at)
    requires var t := Run(up, s, later); pid !in t.procs && x in t.creds.conns && t.creds.conns[x].epoch == s.creds.conns[x].epoch
    ensures var t := Run(up, s, later); var c := t.creds.conns[x];
      && c.access == access && c.refresh == refresh && c.revision == grant.revision
      && (Serving(c) ==>
            (CredentialRead(t, pid, x) != t <==> Due(grant.accessExpires, refresh, grant.refreshExpires, t.now)))
  {
    CredentialSafety.RunKeeps(up, s, later);
    var t := Run(up, s, later);
    hide Run, CredentialSafety.CredInv, SecretSafety.SecretInv;
    assert CredentialSafety.Evolves(s.creds.conns[x], t.creds.conns[x]);
    ReadStartsRefresh(t, pid, x);
    assert t.procs[pid := RefreshReady(x, t.creds.conns[x].revision, t.creds.conns[x].epoch, refresh)] != t.procs;
  }

  /** After a refresh that finds its claim, in any reachable state: the connection serves what the provider answered,
      and while this credential stays a read starts the next refresh exactly when it is due by the answered times. */
  lemma {:induction false} RefreshDecidesReads(up: Upstream, before: seq<Action>, pid: Pid, grant: Grant, later: seq<Action>, reader: Pid)
    requires var s := Run(up, Init, before); pid in s.procs && s.procs[pid].RefreshSealed? && FindsClaim(s, s.procs[pid])
    requires var s := Run(up, Init, before); var x := s.procs[pid].actor;
      var t := Run(up, RefreshCommit(s, pid, grant.revision, grant.accessExpires, grant.refreshExpires, false), later);
      reader !in t.procs && x in t.creds.conns && t.creds.conns[x].epoch == s.procs[pid].epoch + 1
    ensures var s := Run(up, Init, before); var p := s.procs[pid];
      var t := Run(up, RefreshCommit(s, pid, grant.revision, grant.accessExpires, grant.refreshExpires, false), later);
      var c := t.creds.conns[p.actor];
      && c.access == p.access && c.refresh == p.refresh && c.revision == grant.revision
      && (Serving(c) ==>
            (CredentialRead(t, reader, p.actor) != t <==> Due(grant.accessExpires, p.refresh, grant.refreshExpires, t.now)))
  {
    var s := Run(up, Init, before);
    var p, a := s.procs[pid], RefreshStep(pid, DoRefreshCommit(grant.revision, grant.accessExpires, grant.refreshExpires, false));
    CredentialSafety.Reachable(up, before);
    CredentialSafety.StepKeepsInv(up, s, a);
    SecretSafety.StepKeepsInv(false, up, s, a);
    RefreshInstalls(s, pid, grant, false);
    hide CredentialSafety.CredInv, SecretSafety.SecretInv, Run, LoginIdentity.Installed, RefreshCommit;
    InstalledStays(up, Apply(up, s, a), p.actor, grant, p.access, p.refresh, s.now, later, reader);
  }

  /** The same for the credential a login installs. */
  lemma {:induction false} LoginDecidesReads(up: Upstream, before: seq<Action>, pid: Pid, grant: Grant, later: seq<Action>, reader: Pid)
    requires var s := Run(up, Init, before); pid in s.procs && s.procs[pid].ConfirmSealed? && grant.hash !in s.login.sessions
    requires var s := Run(up, Init, before); LoginIdentity.Opens(s, s.procs[pid], false, false)
    requires var s := Run(up, Init, before); var x := s.procs[pid].actor; var r := ConfirmCommit(s, pid, grant, false, false);
      var t := Run(up, r, later);
      reader !in t.procs && x in t.creds.conns && x in r.creds.conns && t.creds.conns[x].epoch == r.creds.conns[x].epoch
    ensures var s := Run(up, Init, before); var p := s.procs[pid]; var t := Run(up, ConfirmCommit(s, pid, grant, false, false), later);
      var c := t.creds.conns[p.actor];
      && c.access == p.access && c.refresh == p.refresh && c.revision == grant.revision
      && (Serving(c) ==>
            (CredentialRead(t, reader, p.actor) != t <==> Due(grant.accessExpires, p.refresh, grant.refreshExpires, t.now)))
  {
    var s := Run(up, Init, before);
    var p, a := s.procs[pid], LoginStep(pid, DoConfirmCommit(grant, false, false));
    CredentialSafety.Reachable(up, before);
    CredentialSafety.StepKeepsInv(up, s, a);
    SecretSafety.StepKeepsInv(false, up, s, a);
    LoginIdentity.ConfirmInstalls(s, pid, grant, false, false);
    hide CredentialSafety.CredInv, SecretSafety.SecretInv, Run, LoginIdentity.Installed, LoginIdentity.Opens, ConfirmCommit;
    InstalledStays(up, Apply(up, s, a), p.actor, grant, p.access, p.refresh, s.now, later, reader);
  }

  // ---- the steps of a refresh ----

  /** The claim succeeds exactly when the connection is still the one that was read and nobody else refreshes it; then
      only its refresh state changes. */
  lemma ClaimAnswers(s: State, pid: Pid)
    requires pid in s.procs && s.procs[pid].RefreshReady?
    ensures var p, t := s.procs[pid], RefreshClaim(s, pid);
      if p.actor in s.creds.conns && s.creds.conns[p.actor].revision == p.revision && s.creds.conns[p.actor].epoch == p.epoch
         && s.creds.conns[p.actor].refreshState == Idle then
        && t.procs == s.procs[pid := RefreshClaimed(p.actor, p.revision, p.epoch, p.refresh)]
        && t.creds.conns == s.creds.conns[p.actor := s.creds.conns[p.actor].(refreshState := Claimed)]
        && t.creds.versions == s.creds.versions && t.login == s.login && t.creds.presented == s.creds.presented
      else t == s.(procs := s.procs - {pid})
  {
  }

  /** A refresh token that can be opened is presented, once; otherwise the refresh has failed. */
  lemma SendAnswers(s: State, pid: Pid)
    requires pid in s.procs && s.procs[pid].RefreshClaimed?
    ensures var p := s.procs[pid];
      RefreshSend(s, pid) ==
        if p.refresh in s.creds.versions && !s.creds.versions[p.refresh].destroyed then
          s.(procs := s.procs[pid := RefreshSent(p.actor, p.revision, p.epoch)],
             creds := s.creds.(presented := s.creds.presented + [p.refresh]))
        else s.(procs := s.procs[pid := RefreshFailed(p.actor, p.revision, p.epoch, [])])
  {
  }

  /** The answered tokens are sealed for the account; without the seal of the refresh token the refresh has failed and
      keeps the other seal as its leftover. */
  lemma ReplySeals(s: State, pid: Pid, reply: RefreshReply)
    requires pid in s.procs && s.procs[pid].RefreshSent?
    requires reply.NewTokens? ==> Fresh(s, reply.access) && reply.refresh !in s.creds.versions && reply.refresh != reply.access
    ensures var p, t := s.procs[pid], RefreshAnswer(s, pid, reply);
      && t.login == s.login && t.creds.conns == s.creds.conns && t.creds.presented == s.creds.presented
      && if reply.RefreshError? then
           t.procs == s.procs[pid := RefreshFailed(p.actor, p.revision, p.epoch, [])] && t.creds == s.creds
         else
           var one := s.creds.versions[reply.access := Version(s.now, false, UserToken(p.actor), pid)];
           if !reply.renewable then
             t.procs == s.procs[pid := RefreshSealed(p.actor, p.revision, p.epoch, reply.access, "")]
             && t.creds.versions == one
           else if reply.refresh == "" then
             t.procs == s.procs[pid := RefreshFailed(p.actor, p.revision, p.epoch, [reply.access])]
             && t.creds.versions == one
           else
             t.procs == s.procs[pid := RefreshSealed(p.actor, p.revision, p.epoch, reply.access, reply.refresh)]
             && t.creds.versions == one[reply.refresh := Version(s.now, false, RefreshToken(p.actor), pid)]
  {
  }

  /** A failed refresh leaves the connection unknown while it is still the one claimed, and gives up its leftovers. */
  lemma GiveUpAnswers(s: State, pid: Pid)
    requires pid in s.procs && s.procs[pid].RefreshFailed?
    ensures var p, t := s.procs[pid], RefreshGiveUp(s, pid);
      && t.login == s.login && t.creds.versions == s.creds.versions
      && t.procs == s.procs[pid := Sweep(Discards(p.leftovers))]
      && t.creds.conns ==
           if p.actor in s.creds.conns && s.creds.conns[p.actor].revision == p.revision
              && s.creds.conns[p.actor].epoch == p.epoch && s.creds.conns[p.actor].refreshState == Claimed
           then s.creds.conns[p.actor := s.creds.conns[p.actor].(refreshState := RefreshUnknown, status := StatusUnknown)]
           else s.creds.conns
  {
  }

  /** A rejection takes the credential out of service under a new epoch exactly when it is still the stored one. */
  lemma RejectAnswers(s: State, x: Actor, revision: string, epoch: nat)
    ensures RejectCredential(s, x, revision, epoch) ==
      if x in s.creds.conns && s.creds.conns[x].revision == revision && s.creds.conns[x].epoch == epoch then
        s.(creds := s.creds.(conns := s.creds.conns[x := s.creds.conns[x].(status := Missing, epoch := epoch + 1)]))
      else s
  {
  }

  // ---- the undisturbed refresh ----

  /** Nothing else happening, a read of a due credential whose secret can be opened ends in the answered one. */
  lemma {:induction false} RefreshSucceeds(s: State, pid: Pid, x: Actor, access: Ref, refresh: Ref, grant: Grant)
    requires pid !in s.procs && x in s.creds.conns && Serving(s.creds.conns[x])
    requires var c := s.creds.conns[x]; Due(c.accessExpires, c.refresh, c.refreshExpires, s.now) && Openable(s, c.refresh)
    requires Fresh(s, access) && Fresh(s, refresh) && access != refresh
    ensures var r := RefreshSend(RefreshClaim(CredentialRead(s, pid, x), pid), pid);
      var t := RefreshCommit(RefreshAnswer(r, pid, NewTokens(access, refresh, true)), pid,
                             grant.revision, grant.accessExpires, grant.refreshExpires, false);
      && r.creds.presented == s.creds.presented + [s.creds.conns[x].refresh]
      && x in t.creds.conns && LoginIdentity.Installed(t.creds.conns[x], access, refresh, grant, s.now)
      && pid !in t.procs && Openable(t, access) && Openable(t, refresh)
  {
    var c := s.creds.conns[x];
    ReadStartsRefresh(s, pid, x);
    var s1 := CredentialRead(s, pid, x);
    ClaimGoesOn(s1, pid, x);
    var s2 := RefreshClaim(s1, pid);
    hide CredentialRead, RefreshClaim, RefreshSend, RefreshAnswer, RefreshCommit, LoginIdentity.Installed;
    SendGoesOn(s2, pid, x);
    var s3 := RefreshSend(s2, pid);
    AnswerGoesOn(s3, pid, x, access, refresh);
    RefreshInstalls(RefreshAnswer(s3, pid, NewTokens(access, refresh, true)), pid, grant, false);
  }

  lemma ClaimGoesOn(s: State, pid: Pid, x: Actor)
    requires x in s.creds.conns && Serving(s.creds.conns[x])
    requires var c := s.creds.conns[x]; pid in s.procs && s.procs[pid] == RefreshReady(x, c.revision, c.epoch, c.refresh)
    ensures var c, t := s.creds.conns[x], RefreshClaim(s, pid);
      && pid in t.procs && t.procs[pid] == RefreshClaimed(x, c.revision, c.epoch, c.refresh)
      && t.creds.conns == s.creds.conns[x := c.(refreshState := Claimed)]
      && t.creds.versions == s.creds.versions && t.creds.presented == s.creds.presented && t.now == s.now
  {
  }

  lemma SendGoesOn(s: State, pid: Pid, x: Actor)
    requires pid in s.procs && s.procs[pid].RefreshClaimed? && s.procs[pid].actor == x && Openable(s, s.procs[pid].refresh)
    ensures var p, t := s.procs[pid], RefreshSend(s, pid);
      && pid in t.procs && t.procs[pid] == RefreshSent(x, p.revision, p.epoch)
      && t.creds.presented == s.creds.presented + [p.refresh]
      && t.creds.conns == s.creds.conns && t.creds.versions == s.creds.versions && t.now == s.now
  {
  }

  lemma AnswerGoesOn(s: State, pid: Pid, x: Actor, access: Ref, refresh: Ref)
    requires pid in s.procs && s.procs[pid].RefreshSent? && s.procs[pid].actor == x
    requires Fresh(s, access) && Fresh(s, refresh) && access != refresh
    ensures var p, t := s.procs[pid], RefreshAnswer(s, pid, NewTokens(access, refresh, true));
      && pid in t.procs && t.procs[pid] == RefreshSealed(x, p.revision, p.epoch, access, refresh)
      && t.creds.conns == s.creds.conns && t.now == s.now && Openable(t, access) && Openable(t, refresh)
  {
  }
}
