/** The answers of the other login transactions in terms of the rows: when each one takes effect, what it leaves, and
    that it leaves everything else alone. */
module LoginAnswers {
  import opened AccessModel
  import opened Text
  import LoginIdentity

  // ---- sessions ----

  /** A session that is used is good for another half hour, within its twelve hours and its browser binding. */
  lemma TouchExtends(l: Logins, now: nat, hash: string, n: nat)
    requires SessionValid(l, now, hash) && now <= n
    ensures var t, row := Touched(l, now, hash), l.sessions[hash];
      && (SessionValid(t, n, hash) <==> n < now + 30 * 60 && n < row.expiresAt && n < l.bindings[row.binding].expiresAt)
      && t == l.(sessions := l.sessions[hash := row.(lastActive := now)])
  {
  }

  /** Logout ends its session, once. While the session is of the browser's current generation both generations of the
      browser move on and the attempts of that generation that are still open are superseded; nothing else changes. */
  lemma LogoutAnswers(l: Logins, hash: string)
    ensures var t := LoggedOut(l, hash);
      if hash in l.sessions && l.sessions[hash].binding in l.bindings && !l.sessions[hash].revoked then
        var row := l.sessions[hash]; var b := l.bindings[row.binding];
        && t.sessions == l.sessions[hash := row.(revoked := true)]
        && (if row.generation == b.identity then
              && t.bindings == l.bindings[row.binding := Binding(b.identity + 1, b.attempt + 1, b.expiresAt)]
              && t.attempts.Keys == l.attempts.Keys
              && forall k | k in l.attempts ::
                   t.attempts[k] == if k.binding == row.binding && l.attempts[k].identity == b.identity
                                       && l.attempts[k].state in {Pending, Exchanging, IdentityPending, Unknown}
                                    then l.attempts[k].(state := Superseded) else l.attempts[k]
            else t.bindings == l.bindings && t.attempts == l.attempts)
      else t == l
  {
  }

  // ---- Start ----

  /** Start seals its material exactly when a login finds nobody signed in, any other purpose a valid session of the same
      browser, and the browser, when it is known, is neither expired nor repeating itself. */
  lemma StartSeals(s: State, pid: Pid, key: AttemptKey, purpose: Purpose, session: Option<string>, ref: Ref)
    requires pid !in s.procs && ref != "" && ref !in s.creds.versions
    ensures var t := StartSeal(s, pid, key, purpose, session, ref); var l := s.login;
      var signedIn := session.Some? && SessionValid(l, s.now, session.value);
      if (if purpose == Login then !signedIn else signedIn && l.sessions[session.value].binding == key.binding)
         && (key.binding in l.bindings ==> s.now < l.bindings[key.binding].expiresAt && key !in l.attempts) then
        && t.login == l && t.procs == s.procs[pid := StartSealed(key, purpose, session, ref, key.binding !in l.bindings)]
        && t.creds == s.creds.(versions := s.creds.versions[ref := Version(s.now, false, AttemptMaterial(key), pid)])
      else t == s
  {
  }

  /** The session a reconnect is for is still the browser's and in use, and its account has a connection. */
  predicate Reconnects(s: State, p: Proc, identity: nat)
    requires p.StartSealed?
  {
    && p.session.Some? && p.session.value in s.login.sessions
    && var row := s.login.sessions[p.session.value];
    && !row.revoked && s.now < row.expiresAt && s.now < row.lastActive + 30 * 60 && row.generation == identity
    && row.actor in s.creds.conns
  }

  /** Not more than ten attempts of an account, or five of a browser, within a minute. */
  predicate Unhurried(s: State, p: Proc)
    requires p.StartSealed?
  {
    && |set k | k in s.login.attempts && k.binding == p.key.binding && s.login.attempts[k].createdAt + 60 > s.now| < 5
    && (p.purpose.Reconnect? && p.session.Some? && p.session.value in s.login.sessions ==>
          |set k | k in s.login.attempts && s.login.attempts[k].actor == Some(s.login.sessions[p.session.value].actor)
                   && s.login.attempts[k].createdAt + 60 > s.now| < 10)
  }

  /** The browser binding Start's transaction works on: a new one for a week, or the one found before. */
  predicate Bound(s: State, p: Proc, b: Binding)
    requires p.StartSealed?
  {
    if p.newBinding then p.key.binding !in s.login.bindings && b == Binding(0, 0, s.now + 7 * 24 * 60 * 60)
    else p.key.binding in s.login.bindings && b == s.login.bindings[p.key.binding] && s.now < b.expiresAt
  }

  /** Start opens its attempt exactly when the binding is as it was found, the attempt is new, the pace is kept, a
      reconnect still finds its session, and the purpose is one the table takes. */
  lemma StartIsAllowed(s: State, p: Proc)
    requires p.StartSealed?
    ensures StartAllowed(s, p) <==>
      exists b {:trigger Bound(s, p, b)} ::
        Bound(s, p, b) && p.key !in s.login.attempts && Unhurried(s, p) && p.purpose in {Login, Reconnect}
        && (p.purpose.Reconnect? ==> Reconnects(s, p, b.identity))
  {
    if StartBinding(s, p).Some? {
      assert Bound(s, p, StartBinding(s, p).value);
    }
  }

  /** Then the attempt is open for ten minutes under new generations, with the account of the session and its credential
      for a reconnect, and the browser's other open attempts are superseded. */
  lemma StartOpens(s: State, pid: Pid, b: Binding)
    requires pid in s.procs && s.procs[pid].StartSealed? && Bound(s, s.procs[pid], b) && StartAllowed(s, s.procs[pid])
    ensures var t, p := StartCommit(s, pid, false), s.procs[pid];
      var actor := if p.purpose == Login then None else Some(s.login.sessions[p.session.value].actor);
      && t.creds == s.creds && t.login.sessions == s.login.sessions && t.procs == s.procs - {pid}
      && t.login.bindings == s.login.bindings[p.key.binding := b.(attempt := b.attempt + 1)]
      && t.login.attempts.Keys == s.login.attempts.Keys + {p.key}
      && t.login.attempts[p.key] == Attempt(
           p.purpose, actor, actor, if actor.None? then None else Some(s.creds.conns[actor.value].revision),
           b.identity, b.attempt + 1, Pending, p.material, "", s.now, s.now + 10 * 60)
      && forall k | k in s.login.attempts ::
           t.login.attempts[k] == if k.binding == p.key.binding
                                     && s.login.attempts[k].state in {Pending, Exchanging, IdentityPending, Unknown}
                                  then s.login.attempts[k].(state := Superseded) else s.login.attempts[k]
  {
    hide BrowserCount, AccountCount;
  }

  /** Otherwise only its material is given up, unless the commit itself was lost. */
  lemma StartRefused(s: State, pid: Pid, lost: bool)
    requires pid in s.procs && s.procs[pid].StartSealed?
    requires lost || !StartAllowed(s, s.procs[pid])
    ensures var t, p := StartCommit(s, pid, lost), s.procs[pid];
      && t.login == s.login && t.creds == s.creds
      && (StartAllowed(s, p) ==> t.procs == s.procs - {pid})
      && (!StartAllowed(s, p) ==>
            t.procs == s.procs[pid := Sweep(if p.material == "" then [] else [Destroy(p.material)])])
  {
    var p := s.procs[pid];
    LoginIdentity.DiscardsOne(p.material);
    hide StartAllowed, Discards;
  }

  // ---- the callback ----

  /** The browser comes back with the attempt it was sent away for. */
  predicate ComesBack(s: State, key: AttemptKey) {
    && key in s.login.attempts && key.binding in s.login.bindings
    && var row, b := s.login.attempts[key], s.login.bindings[key.binding];
    && s.now < b.expiresAt && (row.identity, row.attempt) == (b.identity, b.attempt)
    && row.state == Pending && s.now < row.expiresAt
  }

  /** A callback takes effect exactly for the browser's current attempt while it is pending: a code starts the exchange
      of its material, a refusal by the user cancels the attempt, any other error leaves its end unknown. */
  lemma CallbackAnswers(s: State, pid: Pid, key: AttemptKey, reply: CodeReply)
    requires pid !in s.procs
    ensures var t := CallbackBegin(s, pid, key, reply);
      if ComesBack(s, key) then
        var row := s.login.attempts[key];
        && t.login == s.login.(attempts := s.login.attempts[key := row.(
             state := if reply == AccessDenied then Cancelled else if reply == Code then Exchanging else Unknown)])
        && t.procs == (if reply == Code then s.procs[pid := Exchange(key, row.material)] else s.procs)
        && t.creds == s.creds
      else t == s
  {
  }

  /** The code is exchanged exactly when the material can still be opened and the provider answers; the tokens are
      sealed for the attempt. */
  lemma ExchangeAnswers(s: State, pid: Pid, reply: ExchangeReply)
    requires pid in s.procs && s.procs[pid].Exchange?
    requires reply.Tokens? ==> reply.ref != "" && reply.ref !in s.creds.versions
    ensures var t, p := CallbackExchange(s, pid, reply), s.procs[pid];
      && t.login == s.login
      && if reply.Tokens? && p.material in s.creds.versions && !s.creds.versions[p.material].destroyed then
           && t.procs == s.procs[pid := TokenSealed(p.key, reply.ref, reply.renewable)]
           && t.creds == s.creds.(versions := s.creds.versions[reply.ref := Version(s.now, false, AttemptToken(p.key), pid)])
         else t.procs == s.procs[pid := ExchangeFailed(p.key)] && t.creds == s.creds
  {
  }

  /** The row of an attempt that is in this state. */
  predicate Stands(s: State, key: AttemptKey, state: AttemptState) {
    key in s.login.attempts && s.login.attempts[key].state == state
  }

  /** Only this attempt's row changes. */
  predicate Becomes(s: State, t: State, key: AttemptKey, row: Attempt) {
    t.login == s.login.(attempts := s.login.attempts[key := row])
  }

  /** A failed exchange leaves an attempt that is still exchanging unknown; a different identity rejects a reconnect that
      still waits for one. */
  lemma FailuresEnd(s: State, pid: Pid)
    requires pid in s.procs && (s.procs[pid].ExchangeFailed? || s.procs[pid].Mismatch?)
    ensures var key := s.procs[pid].key; var failed := s.procs[pid].ExchangeFailed?;
      var t := if failed then MarkUnknown(s, pid) else RejectAttempt(s, pid);
      && t.procs == s.procs - {pid} && t.creds == s.creds
      && if Stands(s, key, if failed then Exchanging else IdentityPending) then
           Becomes(s, t, key, s.login.attempts[key].(state := if failed then Unknown else Rejected))
         else t.login == s.login
  {
  }

  /** The token is stored exactly while the attempt is exchanging and not over; otherwise its seal is given up, unless
      the commit itself was lost. */
  lemma StoreAnswers(s: State, pid: Pid, lost: bool)
    requires pid in s.procs && s.procs[pid].TokenSealed?
    ensures var t, p := StoreToken(s, pid, lost), s.procs[pid];
      && t.creds == s.creds
      && if lost then t.login == s.login && t.procs == s.procs - {pid}
         else if Stands(s, p.key, Exchanging) && s.now < s.login.attempts[p.key].expiresAt then
           && Becomes(s, t, p.key, s.login.attempts[p.key].(state := IdentityPending, token := p.token))
           && t.procs == s.procs[pid := Identify(p.key, p.renewable)]
         else
           && t.login == s.login
           && t.procs == s.procs[pid := Sweep(if p.token == "" then [] else [Destroy(p.token)])]
  {
    LoginIdentity.DiscardsOne(s.procs[pid].token);
    hide Discards;
  }

  // ---- the identity ----

  /** What the provider's identity leads to: nothing for an attempt that does not wait for one any more, the rejection of
      a reconnect for another account, and for the account itself a seal of the access token and, for a renewable one,
      of the refresh token; without the second seal the first is given up. */
  lemma LookupAnswers(s: State, pid: Pid, identity: Option<Actor>, access: Ref, refresh: Ref)
    requires pid in s.procs && s.procs[pid].Identify?
    requires access != "" && access !in s.creds.versions && refresh !in s.creds.versions && refresh != access
    ensures var t, p := ConfirmLookup(s, pid, identity, access, refresh), s.procs[pid];
      && t.login == s.login
      && if identity.None? || !Stands(s, p.key, IdentityPending) || s.login.attempts[p.key].expiresAt <= s.now then
           t.procs == s.procs - {pid} && t.creds == s.creds
         else if s.login.attempts[p.key].purpose == Reconnect && s.login.attempts[p.key].expected != identity then
           t.procs == s.procs[pid := Mismatch(p.key)] && t.creds == s.creds
         else
           var one := s.creds.versions[access := Version(s.now, false, UserToken(identity.value), pid)];
           if p.renewable && refresh != "" then
             && t.procs == s.procs[pid := ConfirmSealed(p.key, identity.value, access, refresh)]
             && t.creds == s.creds.(versions := one[refresh := Version(s.now, false, RefreshToken(identity.value), pid)])
           else
             && t.procs == s.procs[pid := if p.renewable then Sweep([Destroy(access)])
                                          else ConfirmSealed(p.key, identity.value, access, "")]
             && t.creds == s.creds.(versions := one)
  {
    LoginIdentity.DiscardsOne(access);
    hide Discards;
  }

  /** The worker takes up the identity step of an attempt exactly while it is the browser's current one, waits for its
      identity and its token can be opened. */
  lemma WorkerTakesUp(s: State, pid: Pid, key: AttemptKey, renewable: bool)
    requires pid !in s.procs
    ensures var t := WorkerPick(s, pid, key, renewable);
      if Stands(s, key, IdentityPending) && key.binding in s.login.bindings
         && s.now < s.login.attempts[key].expiresAt && s.now < s.login.bindings[key.binding].expiresAt
         && s.login.attempts[key].identity == s.login.bindings[key.binding].identity
         && s.login.attempts[key].attempt == s.login.bindings[key.binding].attempt
         && s.login.attempts[key].token in s.creds.versions && !s.creds.versions[s.login.attempts[key].token].destroyed
      then t == s.(procs := s.procs[pid := Identify(key, renewable)])
      else t == s
  {
  }

  /** An attempt that is over expires when nothing was sent for it, is unknown when something was, and is left alone when
      it has already ended; before that maintenance leaves it alone. */
  lemma ExpiryAnswers(attempts: map<AttemptKey, Attempt>, now: nat, key: AttemptKey)
    requires key in attempts
    ensures var row := attempts[key];
      && ExpireRows(attempts, now).Keys == attempts.Keys
      && ExpireRows(attempts, now)[key] == row.(state :=
           if now < row.expiresAt then row.state
           else if row.state == Pending then Expired
           else if row.state == Exchanging || row.state == IdentityPending then Unknown
           else row.state)
  {
  }
}
