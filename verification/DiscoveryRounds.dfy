/** Who may take a discovery batch and when, what a round of the worker does to it, and that undisturbed rounds
    finish the listing. */
module DiscoveryRounds {
  import opened AccessModel
  import opened Text
  import CredentialAnswers
  import DiscoverySafety

  /** Unfinished, unexpired, due, without a running lease, and of the connection's current credential. */
  predicate MayClaim(s: State, b: Batch) {
    && !b.complete && s.now < b.expiresAt && b.nextRun <= s.now && (b.lease.None? || b.lease.value < s.now)
    && b.actor in s.creds.conns
    && (s.creds.conns[b.actor].revision, s.creds.conns[b.actor].epoch) == (b.revision, b.epoch)
  }

  /** A claim takes exactly such a batch: the next claim version and a lease of fifteen seconds. */
  lemma ClaimTakes(s: State, pid: Pid, id: string)
    requires pid !in s.procs && id in s.batches
    ensures var b, t := s.batches[id], BatchClaim(s, pid, id);
      if MayClaim(s, b) then
        t == s.(batches := s.batches[id := b.(claim := b.claim + 1, lease := Some(s.now + 15))],
                procs := s.procs[pid := BatchClaimed(id, b.claim + 1)])
      else t == s
  {
  }

  /** While a lease runs nobody else takes the batch. */
  lemma LeaseExcludes(s: State, pid: Pid, id: string, later: State, other: Pid)
    requires pid !in s.procs && id in s.batches && MayClaim(s, s.batches[id])
    requires later.batches == BatchClaim(s, pid, id).batches && other !in later.procs && s.now <= later.now <= s.now + 15
    ensures BatchClaim(later, other, id) == later
  {
  }

  /** A new batch is of the credential the connection has now, unfinished and due at once, for ten minutes. */
  lemma CreatedBatch(s: State, id: string, x: Actor)
    requires id !in s.batches && x in s.creds.conns
    ensures var t := BatchCreate(s, id, x);
      && id in t.batches && t == s.(batches := s.batches[id := t.batches[id]])
      && var b, c := t.batches[id], s.creds.conns[x];
      && (b.actor, b.revision, b.epoch, b.token) == (x, c.revision, c.epoch, c.access)
      && !b.complete && b.repos == map[] && b.cursor == 1 && b.expiresAt == s.now + 10 * 60
      && MayClaim(t, b)
  {
  }

  /** The row under the claim the operation holds, for a connection that still serves the batch's credential. */
  predicate Fenced(s: State, p: Proc)
    requires p.Fetching?
  {
    && p.id in s.batches && s.batches[p.id].claim == p.batch.claim && s.now < s.batches[p.id].expiresAt
    && p.batch.actor in s.creds.conns
    && var c := s.creds.conns[p.batch.actor];
    && (c.revision, c.epoch) == (p.batch.revision, p.batch.epoch) && c.status == Connected && c.refreshState == Idle
  }

  predicate Named(items: seq<Repo>, id: int) {
    exists i :: 0 <= i < |items| && items[i].id == id
  }

  /** The items are added, the last of each id, and everything else is kept. */
  ghost predicate Merged(repos: map<int, Repo>, items: seq<Repo>, repos': map<int, Repo>) {
    && (forall id: int :: id in repos' <==> id in repos || Named(items, id))
    && (forall id | id in repos && !Named(items, id) :: repos'[id] == repos[id])
    && (forall i | 0 <= i < |items| && !Named(items[i + 1..], items[i].id) :: repos'[items[i].id] == items[i])
  }

  lemma {:induction false} UpsertsMerge(repos: map<int, Repo>, items: seq<Repo>)
    ensures Merged(repos, items, Upserts(repos, items))
    decreases |items|
  {
    if items != [] {
      var first, rest := items[0], items[1..];
      UpsertsMerge(repos[first.id := first], rest);
      NamedFirst(items);
      forall i | 0 <= i < |items| && !Named(items[i + 1..], items[i].id)
        ensures items[i].id in Upserts(repos, items) && Upserts(repos, items)[items[i].id] == items[i]
      {
        if i > 0 {
          assert rest[i - 1] == items[i] && rest[i..] == items[i + 1..];
        }
      }
    }
  }

  lemma {:induction false} NamedFirst(items: seq<Repo>)
    requires items != []
    ensures forall id: int :: Named(items, id) <==> id == items[0].id || Named(items[1..], id)
  {
    forall id: int
      ensures Named(items, id) <==> id == items[0].id || Named(items[1..], id)
    {
      assert forall i :: 0 <= i < |items[1..]| ==> items[1..][i] == items[i + 1];
      assert forall i :: 0 < i < |items| ==> items[i] == items[1..][i - 1];
    }
  }

  /** `page` is where the batch stood when it was read. */
  ghost predicate Advanced(b: Batch, b': Batch, found: seq<Repo>, page: nat, next: nat, due: nat) {
    && Merged(b.repos, found, b'.repos)
    && b' == b.(repos := b'.repos, cursor := if next == 0 then page else next, complete := next == 0,
                hadSuccess := true, lease := None, nextRun := due)
  }

  /** A commit behind both fences adds the items, gives the lease back and sets the next page and the next run;
      any other changes no batch. */
  lemma CommitAnswers(s: State, pid: Pid, delay: nat)
    requires pid in s.procs && s.procs[pid].Fetching? && s.procs[pid].pages > 0
    ensures var p, t := s.procs[pid], BatchCommit(s, pid, delay);
      && t == s.(batches := t.batches, procs := s.procs - {pid})
      && (if Fenced(s, p) then
            && p.id in t.batches && t.batches == s.batches[p.id := t.batches[p.id]]
            && Advanced(s.batches[p.id], t.batches[p.id], p.found, p.batch.cursor, p.next, s.now + delay + 1)
          else t.batches == s.batches)
  {
    var p := s.procs[pid];
    if p.id in s.batches {
      UpsertsMerge(s.batches[p.id].repos, p.found);
    }
    hide Merged;
  }

  /** A worker without a page gives the lease back, unless somebody claimed the batch since. */
  lemma DeferAnswers(s: State, pid: Pid, delay: nat)
    requires pid in s.procs && s.procs[pid].Deferring?
    ensures var p := s.procs[pid];
      BatchDefer(s, pid, delay) == s.(procs := s.procs - {pid}, batches :=
        if p.id in s.batches && s.batches[p.id].claim == p.claim
        then s.batches[p.id := s.batches[p.id].(lease := None, nextRun := s.now + delay + 1)]
        else s.batches)
  {
  }

  /** The row is read back under the claim just made, or the worker stops. */
  lemma ReadBackAnswers(s: State, pid: Pid)
    requires pid in s.procs && s.procs[pid].BatchClaimed?
    ensures var p := s.procs[pid];
      BatchReadBack(s, pid) == s.(procs :=
        if p.id in s.batches && s.batches[p.id].claim == p.claim then s.procs[pid := BatchRead(p.id, s.batches[p.id])]
        else s.procs - {pid})
  {
  }

  /** Up to two pages are fetched, the next one each time; a failure of the first puts the batch off, one of the second
      keeps what was found. */
  lemma PageAnswers(up: Upstream, s: State, pid: Pid, failed: bool)
    requires pid in s.procs && s.procs[pid].Fetching? && s.procs[pid].pages < 2 && s.procs[pid].next != 0
    ensures var p := s.procs[pid]; var page := up(p.access, p.next);
      BatchPage(up, s, pid, failed) ==
        if !failed then
          s.(procs := s.procs[pid := p.(found := p.found + page.items, next := page.next, pages := p.pages + 1)])
        else if p.pages == 0 then s.(procs := s.procs[pid := Deferring(p.id, p.batch.claim)])
        else s
  {
  }

  // ---- a whole round ----

  /** The connection serves the batch's own token, for some time yet. */
  predicate Served(s: State, b: Batch, until: nat) {
    && b.actor in s.creds.conns
    && var c := s.creds.conns[b.actor];
    && (c.revision, c.epoch, c.access) == (b.revision, b.epoch, b.token)
    && c.status == Connected && c.refreshState == Idle && Openable(s, c.access)
    && (c.accessExpires.Some? ==> until + 30 < c.accessExpires.value)
  }

  function Fetched(up: Upstream, s: State, pid: Pid, id: string): State {
    var claimed := BatchCredential(BatchReadBack(BatchClaim(s, pid, id), pid), pid);
    BatchPage(up, BatchPage(up, claimed, pid, false), pid, false)
  }

  /** Claim, read back, credential, up to two pages, commit. */
  function Round(up: Upstream, s: State, pid: Pid, id: string, delay: nat): State {
    BatchCommit(Fetched(up, s, pid, id), pid, delay)
  }

  lemma ClaimReads(s: State, pid: Pid, id: string)
    requires pid !in s.procs && id in s.batches && MayClaim(s, s.batches[id]) && Served(s, s.batches[id], s.now)
    ensures var b := s.batches[id]; var c := b.(claim := b.claim + 1, lease := Some(s.now + 15));
      BatchCredential(BatchReadBack(BatchClaim(s, pid, id), pid), pid)
      == s.(batches := s.batches[id := c],
            procs := s.procs[pid := Fetching(id, c, b.epoch, b.token, [], b.cursor, 0)])
  {
    ClaimTakes(s, pid, id);
    var t := BatchReadBack(BatchClaim(s, pid, id), pid);
    assert pid in t.procs && t.procs[pid].BatchRead?;
    hide BatchClaim, BatchReadBack;
    CredentialAnswers.WorkerGetsToken(t, pid);
  }

  /** How many pages a round fetches. */
  function Pages(up: Upstream, token: Ref, cursor: nat): nat {
    if up(token, cursor).next == 0 then 1 else 2
  }

  lemma TwoPages(up: Upstream, s: State, pid: Pid, p: Proc)
    requires p.Fetching? && p.pages == 0 && p.found == [] && p.next != 0
    requires pid in s.procs && s.procs[pid] == p
    ensures var k := Pages(up, p.access, p.next);
      BatchPage(up, BatchPage(up, s, pid, false), pid, false)
      == s.(procs := s.procs[pid := p.(found := DiscoverySafety.ItemsFrom(up, p.access, p.next, k),
                                       next := DiscoverySafety.PageFrom(up, p.access, p.next, k), pages := k)])
  {
    var first := up(p.access, p.next);
    assert DiscoverySafety.PageFrom(up, p.access, p.next, 1) == first.next;
    assert DiscoverySafety.ItemsFrom(up, p.access, p.next, 1) == [] + first.items == first.items;
    assert [] + first.items == first.items;
  }

  lemma FetchedIs(up: Upstream, s: State, pid: Pid, id: string)
    requires pid !in s.procs && id in s.batches && MayClaim(s, s.batches[id]) && Served(s, s.batches[id], s.now)
    requires s.batches[id].cursor != 0
    ensures var b := s.batches[id]; var k := Pages(up, b.token, b.cursor);
      var c := b.(claim := b.claim + 1, lease := Some(s.now + 15));
      Fetched(up, s, pid, id) == s.(batches := s.batches[id := c], procs := s.procs[pid := Fetching(id, c, b.epoch, b.token,
        DiscoverySafety.ItemsFrom(up, b.token, b.cursor, k), DiscoverySafety.PageFrom(up, b.token, b.cursor, k), k)])
  {
    var claimed := BatchCredential(BatchReadBack(BatchClaim(s, pid, id), pid), pid);
    ClaimReads(s, pid, id);
    hide BatchClaim, BatchReadBack, BatchCredential, BatchPage, Pages, DiscoverySafety.ItemsFrom, DiscoverySafety.PageFrom;
    TwoPages(up, claimed, pid, claimed.procs[pid]);
  }

  /** A round moves the batch over one or two pages of its listing and leaves everything else as it was. */
  lemma RoundAdvances(up: Upstream, s: State, pid: Pid, id: string, delay: nat)
    requires pid !in s.procs && id in s.batches && MayClaim(s, s.batches[id]) && Served(s, s.batches[id], s.now)
    requires s.batches[id].cursor != 0
    ensures var b, t := s.batches[id], Round(up, s, pid, id, delay); var k := Pages(up, b.token, b.cursor);
      && id in t.batches && t == s.(batches := s.batches[id := t.batches[id]])
      && Advanced(b.(claim := b.claim + 1), t.batches[id], DiscoverySafety.ItemsFrom(up, b.token, b.cursor, k),
                  b.cursor, DiscoverySafety.PageFrom(up, b.token, b.cursor, k), s.now + delay + 1)
  {
    FetchedIs(up, s, pid, id);
    var b, f := s.batches[id], Fetched(up, s, pid, id);
    var c, p := f.batches[id], f.procs[pid];
    assert Fenced(f, p);
    hide *;
    CommitOfFetched(s, f, pid, p, c, delay);
    AdvancedLease(b.(claim := b.claim + 1), c.lease, BatchCommit(f, pid, delay).batches[id], p.found, b.cursor, p.next,
                  s.now + delay + 1);
    RoundIs(up, s, pid, id, delay);
  }

  lemma RoundIs(up: Upstream, s: State, pid: Pid, id: string, delay: nat)
    ensures Round(up, s, pid, id, delay) == BatchCommit(Fetched(up, s, pid, id), pid, delay)
  {
  }

  lemma CommitOfFetched(s: State, f: State, pid: Pid, p: Proc, c: Batch, delay: nat)
    requires pid !in s.procs && p.Fetching? && p.pages > 0 && p.batch.cursor == c.cursor
    requires f == s.(batches := s.batches[p.id := c], procs := s.procs[pid := p]) && Fenced(f, p)
    ensures var t := BatchCommit(f, pid, delay);
      && p.id in t.batches && t == s.(batches := s.batches[p.id := t.batches[p.id]])
      && Advanced(c, t.batches[p.id], p.found, c.cursor, p.next, s.now + delay + 1)
  {
    hide Advanced, BatchCommit, Fenced;
    CommitAnswers(f, pid, delay);
    var t := BatchCommit(f, pid, delay);
    assert s.procs[pid := p] - {pid} == s.procs;
    assert s.batches[p.id := c][p.id := t.batches[p.id]] == s.batches[p.id := t.batches[p.id]];
  }

  lemma AdvancedLease(b: Batch, lease: Option<nat>, b': Batch, found: seq<Repo>, page: nat, next: nat, due: nat)
    requires Advanced(b.(lease := lease), b', found, page, next, due)
    ensures Advanced(b, b', found, page, next, due)
  {
  }

  /** Rounds one after the other, each as soon as the batch is due again. */
  function Rounds(up: Upstream, s: State, pid: Pid, id: string, delay: nat, n: nat): State
    decreases n
  {
    if n == 0 || id !in s.batches || s.batches[id].complete then s
    else
      var t := Round(up, s, pid, id, delay);
      Rounds(up, t.(now := t.now + delay + 1), pid, id, delay, n - 1)
  }

  lemma {:induction false} PagesLeft(up: Upstream, token: Ref, cursor: nat, n: nat)
    requires n > 0 && cursor != 0 && DiscoverySafety.PageFrom(up, token, cursor, 2 * n) == 0
    ensures var next := DiscoverySafety.PageFrom(up, token, cursor, Pages(up, token, cursor));
      next == 0 || DiscoverySafety.PageFrom(up, token, next, 2 * (n - 1)) == 0
  {
    DiscoverySafety.ChainSplits(up, token, cursor, 2, 2 * (n - 1));
    assert DiscoverySafety.PageFrom(up, token, cursor, 1) == up(token, cursor).next;
  }

  lemma DueAgain(up: Upstream, s: State, pid: Pid, id: string, delay: nat, until: nat)
    requires pid !in s.procs && id in s.batches && MayClaim(s, s.batches[id]) && Served(s, s.batches[id], until)
    requires s.batches[id].cursor != 0 && s.now + delay + 1 <= until < s.batches[id].expiresAt
    ensures var b, r := s.batches[id], Round(up, s, pid, id, delay); var t := r.(now := r.now + delay + 1);
      var next := DiscoverySafety.PageFrom(up, b.token, b.cursor, Pages(up, b.token, b.cursor));
      && pid !in t.procs && t.now == s.now + delay + 1 && id in t.batches && t.batches[id].token == b.token
      && t.batches[id].cursor != 0 && t.batches[id].expiresAt == b.expiresAt && Served(t, t.batches[id], until)
      && (if next == 0 then t.batches[id].complete else MayClaim(t, t.batches[id]) && t.batches[id].cursor == next)
  {
    RoundAdvances(up, s, pid, id, delay);
    hide Round, Merged, Pages, DiscoverySafety.ItemsFrom, DiscoverySafety.PageFrom;
  }

  /** How long n rounds take. */
  function Span(n: nat, delay: nat): nat {
    if n == 0 then 0 else Span(n - 1, delay) + delay + 1
  }

  /** Nothing is left, or that many pages lead to the end. */
  predicate Ends(up: Upstream, b: Batch, n: nat) {
    b.complete || DiscoverySafety.PageFrom(up, b.token, b.cursor, 2 * n) == 0
  }

  /** As many rounds as half the pages left finish the listing, if the batch and the token last that long. */
  lemma {:induction false} RoundsFinish(up: Upstream, s: State, pid: Pid, id: string, delay: nat, n: nat, until: nat)
    requires pid !in s.procs && id in s.batches && s.batches[id].cursor != 0
    requires s.batches[id].complete || MayClaim(s, s.batches[id])
    requires s.now + Span(n, delay) <= until < s.batches[id].expiresAt && Served(s, s.batches[id], until)
    requires Ends(up, s.batches[id], n)
    ensures id in Rounds(up, s, pid, id, delay, n).batches && Rounds(up, s, pid, id, delay, n).batches[id].complete
    decreases n
  {
    hide Round, Served, MayClaim, Pages, Ends, Rounds;
    RoundsStep(up, s, pid, id, delay, n);
    if n == 0 {
      EndsHere(up, s.batches[id]);
    } else if !s.batches[id].complete {
      var r := Round(up, s, pid, id, delay);
      DueAgain(up, s, pid, id, delay, until);
      EndsNearer(up, s, pid, id, delay, until, n);
      RoundsFinish(up, r.(now := r.now + delay + 1), pid, id, delay, n - 1, until);
    }
  }

  lemma {:induction false} RoundsStep(up: Upstream, s: State, pid: Pid, id: string, delay: nat, n: nat)
    requires id in s.batches
    ensures var r := Round(up, s, pid, id, delay);
      Rounds(up, s, pid, id, delay, n)
      == if n == 0 || s.batches[id].complete then s
         else Rounds(up, r.(now := r.now + delay + 1), pid, id, delay, n - 1)
  {
    hide Round;
  }

  lemma {:induction false} EndsHere(up: Upstream, b: Batch)
    requires Ends(up, b, 0) && b.cursor != 0
    ensures b.complete
  {
  }

  lemma EndsNearer(up: Upstream, s: State, pid: Pid, id: string, delay: nat, until: nat, n: nat)
    requires pid !in s.procs && id in s.batches && MayClaim(s, s.batches[id]) && Served(s, s.batches[id], until)
    requires s.batches[id].cursor != 0 && s.now + delay + 1 <= until < s.batches[id].expiresAt
    requires n > 0 && !s.batches[id].complete && Ends(up, s.batches[id], n)
    ensures id in Round(up, s, pid, id, delay).batches && Ends(up, Round(up, s, pid, id, delay).batches[id], n - 1)
  {
    var b := s.batches[id];
    PagesLeft(up, b.token, b.cursor, n);
    DueAgain(up, s, pid, id, delay, until);
    hide Round, Served, MayClaim, Pages, DiscoverySafety.PageFrom;
  }
}
