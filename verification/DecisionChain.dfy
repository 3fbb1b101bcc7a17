/** Version assignment of internal/decisionchain: any number of transactions record nodes, several per
    transaction, serialized per chain by an advisory lock that lives until commit or rollback. */
module DecisionChain {

  datatype Write = Write(event: string, key: string, step: string, payload: string)
  datatype Node = Node(id: string, event: string, key: string, step: string, version: nat, payload: string)

  /** hashtextextended: what the advisory lock is taken on. Nothing but its being a function is used. */
  type Hash = string -> int

  function LockOf(h: Hash, key: string, step: string): int {
    h(key + ":" + step)
  }

  // Where a transaction stands inside recordTx.
  datatype Phase = Ready | Locked(write: Write) | Versioned(write: Write, version: nat)

  // `results` are the nodes the transaction's calls have returned so far.
  datatype Tx = Tx(locks: set<int>, pending: seq<Node>, phase: Phase, results: seq<Node>)

  datatype State = State(nodes: seq<Node>, txs: map<nat, Tx>)

  const Init := State([], map[])

  /** The nodes of one chain, in table order. */
  function Chain(nodes: seq<Node>, key: string, step: string): seq<Node> {
    if nodes == [] then []
    else
      var last := nodes[|nodes| - 1];
      Chain(nodes[..|nodes| - 1], key, step) + (if last.key == key && last.step == step then [last] else [])
  }

  /** COALESCE(MAX(version), 0) over the rows of a chain. */
  function MaxVersion(nodes: seq<Node>, key: string, step: string): nat {
    if nodes == [] then 0
    else
      var last := nodes[|nodes| - 1];
      var rest := MaxVersion(nodes[..|nodes| - 1], key, step);
      if last.key == key && last.step == step && last.version > rest then last.version else rest
  }

  predicate HasEvent(nodes: seq<Node>, event: string) {
    exists i :: 0 <= i < |nodes| && nodes[i].event == event
  }

  /** The stored node of an event: byEventID. */
  function ByEvent(nodes: seq<Node>, event: string): Node
    requires HasEvent(nodes, event)
  {
    if nodes[|nodes| - 1].event == event then nodes[|nodes| - 1] else ByEvent(nodes[..|nodes| - 1], event)
  }

  /** The partial unique index on (requirement_key, step, version). */
  predicate VersionTaken(nodes: seq<Node>, w: Write, version: nat) {
    w.key != "" && exists i :: 0 <= i < |nodes| && nodes[i].key == w.key && nodes[i].step == w.step && nodes[i].version == version
  }

  datatype Action =
    | Begin(tx: nat)
    | Lock(tx: nat, write: Write)
    | ReadMax(tx: nat)
    | Insert(tx: nat, id: string)
    | Commit(tx: nat)
    | Rollback(tx: nat)

  function Set(s: State, t: nat, tx: Tx): State {
    s.(txs := s.txs[t := tx])
  }

  function DoLock(h: Hash, s: State, t: nat, w: Write): State {
    var lock := LockOf(h, w.key, w.step);
    if t !in s.txs || !s.txs[t].phase.Ready? || (exists q | q in s.txs && q != t :: lock in s.txs[q].locks) then s
    else Set(s, t, s.txs[t].(locks := s.txs[t].locks + {lock}, phase := Locked(w)))
  }

  function DoReadMax(s: State, t: nat): State {
    if t !in s.txs || !s.txs[t].phase.Locked? then s
    else
      var w := s.txs[t].phase.write;
      Set(s, t, s.txs[t].(phase := Versioned(w, MaxVersion(s.nodes + s.txs[t].pending, w.key, w.step) + 1)))
  }

  /** INSERT ... ON CONFLICT (event_id) DO NOTHING and the read back. It waits while another open
      transaction has inserted the same event; a taken version would abort the transaction. */
  function DoInsert(s: State, t: nat, id: string): State {
    if t !in s.txs || !s.txs[t].phase.Versioned? then s
    else
      var tx := s.txs[t];
      var w := tx.phase.write;
      var visible := s.nodes + tx.pending;
      if exists q | q in s.txs && q != t :: HasEvent(s.txs[q].pending, w.event) then s
      else if HasEvent(visible, w.event) then
        Set(s, t, tx.(phase := Ready, results := tx.results + [ByEvent(visible, w.event)]))
      else if VersionTaken(visible, w, tx.phase.version) then s.(txs := s.txs - {t})
      else
        var node := Node(id, w.event, w.key, w.step, tx.phase.version, w.payload);
        Set(s, t, tx.(phase := Ready, pending := tx.pending + [node], results := tx.results + [node]))
  }

  function Apply(h: Hash, s: State, a: Action): State {
    match a
    case Begin(t) => if t in s.txs then s else Set(s, t, Tx({}, [], Ready, []))
    case Lock(t, w) => DoLock(h, s, t, w)
    case ReadMax(t) => DoReadMax(s, t)
    case Insert(t, id) => DoInsert(s, t, id)
    case Commit(t) =>
      if t !in s.txs || !s.txs[t].phase.Ready? then s else State(s.nodes + s.txs[t].pending, s.txs - {t})
    case Rollback(t) => s.(txs := s.txs - {t})
  }

  function Run(h: Hash, s: State, actions: seq<Action>): State
    decreases |actions|
  {
    if actions == [] then s else Run(h, Apply(h, s, actions[0]), actions[1..])
  }

  // ---- chains ----

  /** The i-th node of every chain carries version i + 1. */
  ghost predicate WellNumbered(nodes: seq<Node>) {
    forall key, step, i {:trigger Chain(nodes, key, step)[i]} :: 0 <= i < |Chain(nodes, key, step)| ==> Chain(nodes, key, step)[i].version == i + 1
  }

  lemma {:induction false} ChainAppend(a: seq<Node>, b: seq<Node>, key: string, step: string)
    ensures Chain(a + b, key, step) == Chain(a, key, step) + Chain(b, key, step)
    decreases |b|
  {
    if b == [] {
      assert a + b == a;
    } else {
      assert (a + b)[..|a + b| - 1] == a + b[..|b| - 1];
      ChainAppend(a, b[..|b| - 1], key, step);
    }
  }

  /** In a well-numbered table the maximum is the number of nodes of the chain, so max + 1 is the next version. */
  lemma {:induction false} MaxIsCount(nodes: seq<Node>, key: string, step: string)
    requires forall i :: 0 <= i < |Chain(nodes, key, step)| ==> Chain(nodes, key, step)[i].version == i + 1
    ensures MaxVersion(nodes, key, step) == |Chain(nodes, key, step)|
    decreases |nodes|
  {
    if nodes != [] {
      var front := nodes[..|nodes| - 1];
      var c, f := Chain(nodes, key, step), Chain(front, key, step);
      assert forall i :: 0 <= i < |f| ==> f[i] == c[i];
      MaxIsCount(front, key, step);
      if |c| > |f| {
        assert c[|f|] == nodes[|nodes| - 1];
      }
    }
  }

  lemma {:induction false} ChainMembers(nodes: seq<Node>, key: string, step: string, n: Node)
    ensures n in Chain(nodes, key, step) <==> n in nodes && n.key == key && n.step == step
    decreases |nodes|
  {
    if nodes != [] {
      ChainMembers(nodes[..|nodes| - 1], key, step, n);
      assert nodes == nodes[..|nodes| - 1] + [nodes[|nodes| - 1]];
    }
  }

  lemma {:induction false} ByEventFound(nodes: seq<Node>, event: string)
    requires HasEvent(nodes, event)
    ensures ByEvent(nodes, event) in nodes && ByEvent(nodes, event).event == event
    decreases |nodes|
  {
    if nodes[|nodes| - 1].event != event {
      var i :| 0 <= i < |nodes| && nodes[i].event == event;
      assert nodes[..|nodes| - 1][i].event == event;
      ByEventFound(nodes[..|nodes| - 1], event);
    }
  }

  // ---- the invariant ----

  predicate EventsUnique(nodes: seq<Node>) {
    forall i, j :: 0 <= i < j < |nodes| ==> nodes[i].event != nodes[j].event
  }

  /** What a transaction holds locks for: everything it inserted and the write it is working on. */
  predicate Covered(h: Hash, tx: Tx) {
    && (forall n | n in tx.pending :: LockOf(h, n.key, n.step) in tx.locks)
    && (!tx.phase.Ready? ==> LockOf(h, tx.phase.write.key, tx.phase.write.step) in tx.locks)
  }

  /** The table as the transaction would leave it is well numbered, and a version it has read is the next one. */
  ghost predicate TxOk(h: Hash, nodes: seq<Node>, tx: Tx) {
    && Covered(h, tx)
    && WellNumbered(nodes + tx.pending)
    && EventsUnique(nodes + tx.pending)
    && (tx.phase.Versioned? ==>
          tx.phase.version == |Chain(nodes + tx.pending, tx.phase.write.key, tx.phase.write.step)| + 1)
  }

  predicate Apart(a: Tx, b: Tx) {
    && a.locks !! b.locks
    && forall m, n | m in a.pending && n in b.pending :: m.event != n.event
  }

  ghost predicate Inv(h: Hash, s: State) {
    && WellNumbered(s.nodes) && EventsUnique(s.nodes)
    && (forall t {:trigger TxOk(h, s.nodes, s.txs[t])} | t in s.txs :: TxOk(h, s.nodes, s.txs[t]))
    && (forall t, q {:trigger Apart(s.txs[t], s.txs[q])} | t in s.txs && q in s.txs && t != q :: Apart(s.txs[t], s.txs[q]))
  }

  lemma ReplaceKeeps(h: Hash, s: State, t: nat, tx: Tx)
    requires Inv(h, s) && TxOk(h, s.nodes, tx)
    requires forall q | q in s.txs && q != t :: Apart(tx, s.txs[q]) && Apart(s.txs[q], tx)
    ensures Inv(h, Set(s, t, tx))
  {
    var r := Set(s, t, tx);
    forall q | q in r.txs ensures TxOk(h, r.nodes, r.txs[q]) {
      assert q != t ==> TxOk(h, s.nodes, s.txs[q]);
    }
    forall q1, q2 | q1 in r.txs && q2 in r.txs && q1 != q2 ensures Apart(r.txs[q1], r.txs[q2]) {
      assert q1 != t && q2 != t ==> Apart(s.txs[q1], s.txs[q2]);
    }
  }

  lemma DropKeeps(h: Hash, s: State, t: nat)
    requires Inv(h, s)
    ensures Inv(h, s.(txs := s.txs - {t}))
  {
    var r := s.(txs := s.txs - {t});
    forall q | q in r.txs ensures TxOk(h, r.nodes, r.txs[q]) {
      assert TxOk(h, s.nodes, s.txs[q]);
    }
    forall q1, q2 | q1 in r.txs && q2 in r.txs && q1 != q2 ensures Apart(r.txs[q1], r.txs[q2]) {
      assert Apart(s.txs[q1], s.txs[q2]);
    }
  }

  lemma BeginKeeps(h: Hash, s: State, t: nat)
    requires Inv(h, s) && t !in s.txs
    ensures Inv(h, Set(s, t, Tx({}, [], Ready, [])))
  {
    assert s.nodes + [] == s.nodes;
    ReplaceKeeps(h, s, t, Tx({}, [], Ready, []));
  }

  lemma LockKeeps(h: Hash, s: State, t: nat, w: Write)
    requires Inv(h, s)
    ensures Inv(h, DoLock(h, s, t, w))
  {
    if DoLock(h, s, t, w) != s {
      assert TxOk(h, s.nodes, s.txs[t]);
      forall q | q in s.txs && q != t
        ensures Apart(DoLock(h, s, t, w).txs[t], s.txs[q]) && Apart(s.txs[q], DoLock(h, s, t, w).txs[t])
      {
        assert Apart(s.txs[t], s.txs[q]) && Apart(s.txs[q], s.txs[t]);
      }
      ReplaceKeeps(h, s, t, DoLock(h, s, t, w).txs[t]);
    }
  }

  lemma ReadMaxKeeps(h: Hash, s: State, t: nat)
    requires Inv(h, s)
    ensures Inv(h, DoReadMax(s, t))
  {
    if DoReadMax(s, t) != s {
      var tx := s.txs[t];
      var w := tx.phase.write;
      assert TxOk(h, s.nodes, tx);
      MaxIsCount(s.nodes + tx.pending, w.key, w.step);
      forall q | q in s.txs && q != t
        ensures Apart(DoReadMax(s, t).txs[t], s.txs[q]) && Apart(s.txs[q], DoReadMax(s, t).txs[t])
      {
        assert Apart(tx, s.txs[q]) && Apart(s.txs[q], tx);
      }
      ReplaceKeeps(h, s, t, DoReadMax(s, t).txs[t]);
    }
  }

  /** max + 1 is free: the unique index never fires. */
  lemma {:induction false} NextVersionIsFree(nodes: seq<Node>, w: Write)
    requires WellNumbered(nodes)
    ensures !VersionTaken(nodes, w, |Chain(nodes, w.key, w.step)| + 1)
  {
    forall i | 0 <= i < |nodes| && nodes[i].key == w.key && nodes[i].step == w.step
      ensures nodes[i].version <= |Chain(nodes, w.key, w.step)|
    {
      ChainMembers(nodes, w.key, w.step, nodes[i]);
      var k :| 0 <= k < |Chain(nodes, w.key, w.step)| && Chain(nodes, w.key, w.step)[k] == nodes[i];
    }
  }

  lemma {:induction false} AppendKeepsNumbers(nodes: seq<Node>, n: Node)
    requires WellNumbered(nodes) && n.version == |Chain(nodes, n.key, n.step)| + 1
    ensures WellNumbered(nodes + [n])
  {
    forall key, step, i | 0 <= i < |Chain(nodes + [n], key, step)|
      ensures Chain(nodes + [n], key, step)[i].version == i + 1
    {
      assert (nodes + [n])[..|nodes + [n]| - 1] == nodes;
      assert i < |Chain(nodes, key, step)| ==> Chain(nodes + [n], key, step)[i] == Chain(nodes, key, step)[i];
    }
  }

  lemma AppendStaysApart(tx: Tx, tx': Tx, other: Tx, node: Node)
    requires Apart(tx, other) && Apart(other, tx) && !HasEvent(other.pending, node.event)
    requires tx'.locks == tx.locks && (tx'.pending == tx.pending || tx'.pending == tx.pending + [node])
    ensures Apart(tx', other) && Apart(other, tx')
  {
    forall m | m in other.pending
      ensures m.event != node.event
    {
      var i :| 0 <= i < |other.pending| && other.pending[i] == m;
    }
  }

  lemma AppendStaysUnique(nodes: seq<Node>, n: Node)
    requires EventsUnique(nodes) && !HasEvent(nodes, n.event)
    ensures EventsUnique(nodes + [n])
  {
  }

  lemma InsertedOk(h: Hash, nodes: seq<Node>, tx: Tx, node: Node)
    requires TxOk(h, nodes, tx) && tx.phase.Versioned? && !HasEvent(nodes + tx.pending, node.event)
    requires node.key == tx.phase.write.key && node.step == tx.phase.write.step && node.version == tx.phase.version
    ensures TxOk(h, nodes, tx.(phase := Ready, pending := tx.pending + [node], results := tx.results + [node]))
  {
    assert nodes + (tx.pending + [node]) == (nodes + tx.pending) + [node];
    AppendKeepsNumbers(nodes + tx.pending, node);
    AppendStaysUnique(nodes + tx.pending, node);
  }

  lemma InsertKeeps(h: Hash, s: State, t: nat, id: string)
    requires Inv(h, s)
    ensures Inv(h, DoInsert(s, t, id))
  {
    var r := DoInsert(s, t, id);
    if r != s {
      var tx := s.txs[t];
      var w := tx.phase.write;
      var node := Node(id, w.event, w.key, w.step, tx.phase.version, w.payload);
      assert TxOk(h, s.nodes, tx);
      NextVersionIsFree(s.nodes + tx.pending, w);
      if !HasEvent(s.nodes + tx.pending, w.event) {
        InsertedOk(h, s.nodes, tx, node);
      }
      forall q | q in s.txs && q != t
        ensures Apart(r.txs[t], s.txs[q]) && Apart(s.txs[q], r.txs[t])
      {
        assert Apart(tx, s.txs[q]) && Apart(s.txs[q], tx);
        AppendStaysApart(tx, r.txs[t], s.txs[q], node);
      }
      hide Inv, TxOk, HasEvent, VersionTaken;
      ReplaceKeeps(h, s, t, r.txs[t]);
    }
  }

  // ---- commit ----

  /** Two transactions never have nodes of the same chain: both would hold its lock. */
  lemma {:induction false} OneChainOneTx(h: Hash, a: Tx, b: Tx, key: string, step: string)
    requires Covered(h, a) && Apart(a, b) && LockOf(h, key, step) in b.locks
    ensures Chain(a.pending, key, step) == []
  {
    var c := Chain(a.pending, key, step);
    if c != [] {
      ChainMembers(a.pending, key, step, c[0]);
    }
  }

  lemma {:induction false} CommitChains(h: Hash, nodes: seq<Node>, a: Tx, b: Tx, key: string, step: string)
    requires Covered(h, a) && Covered(h, b) && Apart(a, b) && Apart(b, a)
    ensures Chain(nodes + a.pending + b.pending, key, step) == Chain(nodes + b.pending, key, step)
         || Chain(nodes + a.pending + b.pending, key, step) == Chain(nodes + a.pending, key, step)
    ensures LockOf(h, key, step) in b.locks
         ==> Chain(nodes + a.pending + b.pending, key, step) == Chain(nodes + b.pending, key, step)
  {
    ChainAppend(nodes + a.pending, b.pending, key, step);
    ChainAppend(nodes, a.pending, key, step);
    ChainAppend(nodes, b.pending, key, step);
    if LockOf(h, key, step) in b.locks {
      OneChainOneTx(h, a, b, key, step);
    } else if Chain(b.pending, key, step) != [] {
      ChainMembers(b.pending, key, step, Chain(b.pending, key, step)[0]);
    }
  }

  lemma CommitLeavesOk(h: Hash, nodes: seq<Node>, a: Tx, b: Tx)
    requires TxOk(h, nodes, a) && TxOk(h, nodes, b) && Apart(a, b) && Apart(b, a)
    ensures TxOk(h, nodes + a.pending, b)
  {
    forall key, step, i | 0 <= i < |Chain(nodes + a.pending + b.pending, key, step)|
      ensures Chain(nodes + a.pending + b.pending, key, step)[i].version == i + 1
    {
      CommitChains(h, nodes, a, b, key, step);
    }
    if b.phase.Versioned? {
      CommitChains(h, nodes, a, b, b.phase.write.key, b.phase.write.step);
    }
    var all := nodes + a.pending + b.pending;
    forall i, j | 0 <= i < j < |all| ensures all[i].event != all[j].event {
      if j < |nodes| + |a.pending| {
        assert all[i] == (nodes + a.pending)[i] && all[j] == (nodes + a.pending)[j];
      } else {
        var n := b.pending[j - |nodes| - |a.pending|];
        if i < |nodes| {
          assert all[i] == (nodes + b.pending)[i] && n == (nodes + b.pending)[j - |a.pending|];
        } else if i < |nodes| + |a.pending| {
          assert all[i] == a.pending[i - |nodes|] && all[i] in a.pending && n in b.pending;
        } else {
          assert all[i] == (nodes + b.pending)[i - |a.pending|] && n == (nodes + b.pending)[j - |a.pending|];
        }
      }
    }
  }

  lemma CommitKeeps(h: Hash, s: State, t: nat)
    requires Inv(h, s) && t in s.txs
    ensures Inv(h, State(s.nodes + s.txs[t].pending, s.txs - {t}))
  {
    var r := State(s.nodes + s.txs[t].pending, s.txs - {t});
    assert TxOk(h, s.nodes, s.txs[t]);
    forall q | q in r.txs ensures TxOk(h, r.nodes, r.txs[q]) {
      assert TxOk(h, s.nodes, s.txs[q]) && Apart(s.txs[t], s.txs[q]) && Apart(s.txs[q], s.txs[t]);
      CommitLeavesOk(h, s.nodes, s.txs[t], s.txs[q]);
    }
    forall q1, q2 | q1 in r.txs && q2 in r.txs && q1 != q2 ensures Apart(r.txs[q1], r.txs[q2]) {
      assert Apart(s.txs[q1], s.txs[q2]);
    }
  }

  // ---- every run ----

  lemma StepKeepsInv(h: Hash, s: State, a: Action)
    requires Inv(h, s)
    ensures Inv(h, Apply(h, s, a)) && s.nodes <= Apply(h, s, a).nodes
  {
    match a {
      case Begin(t) => if t !in s.txs { BeginKeeps(h, s, t); }
      case Lock(t, w) => LockKeeps(h, s, t, w);
      case ReadMax(t) => ReadMaxKeeps(h, s, t);
      case Insert(t, id) => InsertKeeps(h, s, t, id);
      case Commit(t) => if t in s.txs { CommitKeeps(h, s, t); }
      case Rollback(t) => DropKeeps(h, s, t);
    }
  }

  lemma {:induction false} RunKeeps(h: Hash, s: State, actions: seq<Action>)
    requires Inv(h, s)
    ensures Inv(h, Run(h, s, actions)) && s.nodes <= Run(h, s, actions).nodes
    decreases |actions|
  {
    if actions != [] {
      StepKeepsInv(h, s, actions[0]);
      RunKeeps(h, Apply(h, s, actions[0]), actions[1..]);
    }
  }

  /** Whatever the interleaving of commits and rollbacks, the committed nodes of a chain carry
      exactly the versions 1..n, in commit order. */
  lemma {:induction false} VersionsAreContiguous(h: Hash, actions: seq<Action>, key: string, step: string, i: nat)
    requires i < |Chain(Run(h, Init, actions).nodes, key, step)|
    ensures Chain(Run(h, Init, actions).nodes, key, step)[i].version == i + 1
  {
    RunKeeps(h, Init, actions);
  }

  /** An event is stored at most once, and what is committed stays as it is. */
  lemma {:induction false} EventStoredOnce(h: Hash, actions: seq<Action>, more: seq<Action>, i: nat, j: nat)
    requires var nodes := Run(h, Init, actions).nodes; i < |nodes| && j < |nodes| && nodes[i].event == nodes[j].event
    ensures i == j && Run(h, Init, actions).nodes <= Run(h, Run(h, Init, actions), more).nodes
  {
    RunKeeps(h, Init, actions);
    RunKeeps(h, Run(h, Init, actions), more);
  }

  /** Redelivery: recording an event that is already committed inserts nothing and returns the
      committed node, whatever the second write says. */
  lemma {:induction false} RedeliveryReturnsOriginal(h: Hash, actions: seq<Action>, t: nat, id: string, i: nat)
    requires var s := Run(h, Init, actions);
      && t in s.txs && s.txs[t].phase.Versioned? && i < |s.nodes|
      && s.nodes[i].event == s.txs[t].phase.write.event
    ensures var s := Run(h, Init, actions); var r := DoInsert(s, t, id);
      && r.nodes == s.nodes && t in r.txs && r.txs[t].pending == s.txs[t].pending
      && r.txs[t].results == s.txs[t].results + [s.nodes[i]]
  {
    var s := Run(h, Init, actions);
    RunKeeps(h, Init, actions);
    assert TxOk(h, s.nodes, s.txs[t]);
    var visible := s.nodes + s.txs[t].pending;
    var w := s.txs[t].phase.write;
    assert visible[i].event == w.event;
    ByEventFound(visible, w.event);
    var j :| 0 <= j < |visible| && visible[j] == ByEvent(visible, w.event);
    assert i == j;
    forall q | q in s.txs && q != t
      ensures !HasEvent(s.txs[q].pending, w.event)
    {
      CommittedIsNotPending(h, s, q, i);
    }
  }

  lemma {:induction false} CommittedIsNotPending(h: Hash, s: State, q: nat, i: nat)
    requires Inv(h, s) && q in s.txs && i < |s.nodes|
    ensures !HasEvent(s.txs[q].pending, s.nodes[i].event)
  {
    assert TxOk(h, s.nodes, s.txs[q]);
    var visible := s.nodes + s.txs[q].pending;
    forall k | 0 <= k < |s.txs[q].pending|
      ensures s.txs[q].pending[k].event != s.nodes[i].event
    {
      assert visible[i] == s.nodes[i] && visible[|s.nodes| + k] == s.txs[q].pending[k];
    }
  }

  /** The unique index on versions stays a pure backstop: no insert ever runs into it, neither on what
      the transaction sees nor on what another one has inserted and not committed. */
  lemma {:induction false} BackstopNeverFires(h: Hash, actions: seq<Action>, t: nat, q: nat)
    requires var s := Run(h, Init, actions); t in s.txs && s.txs[t].phase.Versioned? && q in s.txs && q != t
    ensures var s := Run(h, Init, actions); var p := s.txs[t].phase;
      && !VersionTaken(s.nodes + s.txs[t].pending, p.write, p.version)
      && !VersionTaken(s.txs[q].pending, p.write, p.version)
  {
    var s := Run(h, Init, actions);
    RunKeeps(h, Init, actions);
    var w := s.txs[t].phase.write;
    assert TxOk(h, s.nodes, s.txs[t]) && TxOk(h, s.nodes, s.txs[q]) && Apart(s.txs[q], s.txs[t]);
    NextVersionIsFree(s.nodes + s.txs[t].pending, w);
    OneChainOneTx(h, s.txs[q], s.txs[t], w.key, w.step);
    forall n | n in s.txs[q].pending ensures n.key != w.key || n.step != w.step {
      ChainMembers(s.txs[q].pending, w.key, w.step, n);
    }
  }

  /** The transaction after recordTx has run without waiting. */
  function Recorded(h: Hash, nodes: seq<Node>, tx: Tx, w: Write, id: string): Tx {
    var visible, locked := nodes + tx.pending, tx.(locks := tx.locks + {LockOf(h, w.key, w.step)});
    if HasEvent(visible, w.event) then locked.(results := tx.results + [ByEvent(visible, w.event)])
    else
      var node := Node(id, w.event, w.key, w.step, MaxVersion(visible, w.key, w.step) + 1, w.payload);
      locked.(pending := tx.pending + [node], results := tx.results + [node])
  }

  /** Nobody else holds the lock or has inserted the same event: the call does not wait. */
  ghost predicate Unopposed(h: Hash, s: State, t: nat, w: Write) {
    forall q | q in s.txs && q != t ::
      LockOf(h, w.key, w.step) !in s.txs[q].locks && !HasEvent(s.txs[q].pending, w.event)
  }

  lemma {:induction false} LockThenMax(h: Hash, s: State, t: nat, w: Write)
    requires t in s.txs && s.txs[t].phase.Ready? && Unopposed(h, s, t, w)
    ensures var tx := s.txs[t];
      DoReadMax(DoLock(h, s, t, w), t) == Set(s, t, tx.(locks := tx.locks + {LockOf(h, w.key, w.step)},
        phase := Versioned(w, MaxVersion(s.nodes + tx.pending, w.key, w.step) + 1)))
  {
    hide HasEvent, MaxVersion;
  }

  lemma {:induction false} SetTwice(s: State, t: nat, a: Tx, b: Tx)
    ensures Set(Set(s, t, a), t, b) == Set(s, t, b) && Set(s, t, a).txs[t] == a && Set(s, t, a).nodes == s.nodes
  {
  }

  lemma {:induction false} InsertIs(s: State, t: nat, id: string)
    requires t in s.txs && s.txs[t].phase.Versioned?
    requires var tx := s.txs[t];
      !VersionTaken(s.nodes + tx.pending, tx.phase.write, tx.phase.version)
      && forall q | q in s.txs && q != t :: !HasEvent(s.txs[q].pending, tx.phase.write.event)
    ensures var tx, w := s.txs[t], s.txs[t].phase.write;
      var node := Node(id, w.event, w.key, w.step, tx.phase.version, w.payload);
      DoInsert(s, t, id) == Set(s, t,
        if HasEvent(s.nodes + tx.pending, w.event)
        then tx.(phase := Ready, results := tx.results + [ByEvent(s.nodes + tx.pending, w.event)])
        else tx.(phase := Ready, pending := tx.pending + [node], results := tx.results + [node]))
  {
    hide HasEvent, VersionTaken;
  }

  lemma {:induction false} NextIsFree(h: Hash, s: State, t: nat, w: Write)
    requires Inv(h, s) && t in s.txs
    ensures var visible := s.nodes + s.txs[t].pending; !VersionTaken(visible, w, MaxVersion(visible, w.key, w.step) + 1)
  {
    var tx := s.txs[t];
    assert TxOk(h, s.nodes, tx);
    MaxIsCount(s.nodes + tx.pending, w.key, w.step);
    NextVersionIsFree(s.nodes + tx.pending, w);
    hide VersionTaken, MaxVersion;
  }

  lemma {:induction false} ThreeSteps(h: Hash, s: State, t: nat, w: Write, id: string)
    requires Inv(h, s) && t in s.txs && s.txs[t].phase.Ready? && Unopposed(h, s, t, w)
    ensures DoInsert(DoReadMax(DoLock(h, s, t, w), t), t, id) == Set(s, t, Recorded(h, s.nodes, s.txs[t], w, id))
  {
    hide Inv, VersionTaken, HasEvent, MaxVersion, DoLock, DoReadMax, DoInsert;
    var tx := s.txs[t];
    NextIsFree(h, s, t, w);
    LockThenMax(h, s, t, w);
    var locked := tx.(locks := tx.locks + {LockOf(h, w.key, w.step)},
      phase := Versioned(w, MaxVersion(s.nodes + tx.pending, w.key, w.step) + 1));
    InsertIs(Set(s, t, locked), t, id);
    SetTwice(s, t, locked, Recorded(h, s.nodes, tx, w, id));
    hide Set;
  }

  /** Such a call is the lock, the maximum and the insert of the machine, one after the other. */
  lemma {:induction false} RecordIsThreeSteps(h: Hash, s: State, t: nat, w: Write, id: string)
    requires Inv(h, s) && t in s.txs && s.txs[t].phase.Ready? && Unopposed(h, s, t, w)
    ensures Run(h, s, [Lock(t, w), ReadMax(t), Insert(t, id)]) == Set(s, t, Recorded(h, s.nodes, s.txs[t], w, id))
    ensures Inv(h, Set(s, t, Recorded(h, s.nodes, s.txs[t], w, id)))
  {
    ThreeSteps(h, s, t, w, id);
    RunOfThree(h, s, Lock(t, w), ReadMax(t), Insert(t, id));
    RunKeeps(h, s, [Lock(t, w), ReadMax(t), Insert(t, id)]);
    hide Inv, Run, Recorded, DoLock, DoReadMax, DoInsert;
  }

  lemma {:induction false} RunOfThree(h: Hash, s: State, a: Action, b: Action, c: Action)
    ensures Run(h, s, [a, b, c]) == Apply(h, Apply(h, Apply(h, s, a), b), c)
  {
    var all := [a, b, c];
    RunFirst(h, s, all);
    RunFirst(h, Apply(h, s, a), all[1..]);
    RunFirst(h, Apply(h, Apply(h, s, a), b), all[1..][1..]);
    hide Apply;
    assert all[1..][1..][1..] == [];
  }

  lemma {:induction false} RunFirst(h: Hash, s: State, actions: seq<Action>)
    requires actions != []
    ensures Run(h, s, actions) == Run(h, Apply(h, s, actions[0]), actions[1..])
  {
    hide Apply;
  }

  /** A delivery in a transaction of its own, whatever happened before it: a new event becomes the next version of its
      chain, with what was delivered, a known one changes nothing, and either way no lock is left behind. */
  lemma {:induction false} DeliveryIsStored(h: Hash, actions: seq<Action>, t: nat, w: Write, id: string)
    requires var s := Run(h, Init, actions); t !in s.txs && Unopposed(h, s, t, w)
    ensures var s := Run(h, Init, actions);
      var stored := Node(id, w.event, w.key, w.step, |Chain(s.nodes, w.key, w.step)| + 1, w.payload);
      Run(h, s, [Begin(t), Lock(t, w), ReadMax(t), Insert(t, id), Commit(t)])
        == State(if exists i :: 0 <= i < |s.nodes| && s.nodes[i].event == w.event then s.nodes else s.nodes + [stored], s.txs)
  {
    var s := Run(h, Init, actions);
    var tx := Tx({}, [], Ready, []);
    RunKeeps(h, Init, actions);
    BeginKeeps(h, s, t);
    MaxIsCount(s.nodes, w.key, w.step);
    RecordIsThreeSteps(h, Set(s, t, tx), t, w, id);
    RunOfFive(h, s, Begin(t), Lock(t, w), ReadMax(t), Insert(t, id), Commit(t));
    hide Inv, Run, MaxVersion, Chain, DoLock, DoReadMax, DoInsert;
    CommitOfRecorded(h, s, t, w, id);
  }

  lemma {:induction false} CommitOfRecorded(h: Hash, s: State, t: nat, w: Write, id: string)
    requires t !in s.txs
    ensures var tx := Tx({}, [], Ready, []);
      var stored := Node(id, w.event, w.key, w.step, MaxVersion(s.nodes, w.key, w.step) + 1, w.payload);
      Apply(h, Set(Set(s, t, tx), t, Recorded(h, s.nodes, tx, w, id)), Commit(t))
        == State(if HasEvent(s.nodes, w.event) then s.nodes else s.nodes + [stored], s.txs)
  {
    var tx := Tx({}, [], Ready, []);
    assert s.nodes + tx.pending == s.nodes;
    hide MaxVersion, HasEvent;
    var done := Recorded(h, s.nodes, tx, w, id);
    SetTwice(s, t, tx, done);
    assert Set(s, t, done).txs - {t} == s.txs;
    assert HasEvent(s.nodes, w.event) ==> s.nodes + done.pending == s.nodes;
  }

  lemma {:induction false} RunOfFive(h: Hash, s: State, a: Action, b: Action, c: Action, d: Action, e: Action)
    ensures Run(h, s, [a, b, c, d, e]) == Apply(h, Run(h, Apply(h, s, a), [b, c, d]), e)
  {
    hide Apply;
    var all := [a, b, c, d, e];
    RunFirst(h, s, all);
    assert all[1..] == [b, c, d] + [e];
    RunLast(h, Apply(h, s, a), [b, c, d], e);
  }

  lemma {:induction false} RunLast(h: Hash, s: State, actions: seq<Action>, a: Action)
    ensures Run(h, s, actions + [a]) == Apply(h, Run(h, s, actions), a)
    decreases |actions|
  {
    if actions == [] {
      assert [] + [a] == [a] && [a][1..] == [];
      RunFirst(h, s, [a]);
    } else {
      assert (actions + [a])[1..] == actions[1..] + [a];
      RunFirst(h, s, actions + [a]);
      RunLast(h, Apply(h, s, actions[0]), actions[1..], a);
    }
    hide Apply;
  }

  /** Only a commit between two calls changes the table, by the rows of its transaction; a rollback leaves no row and
      no lock. */
  lemma {:induction false} OnlyCommitsStore(h: Hash, s: State, a: Action)
    ensures var r := Apply(h, s, a);
      && r.nodes == (if a.Commit? && a.tx in s.txs && s.txs[a.tx].phase.Ready? then s.nodes + s.txs[a.tx].pending else s.nodes)
      && (a.Rollback? ==> r.txs == s.txs - {a.tx})
      && forall t | t in s.txs && t != a.tx :: t in r.txs && r.txs[t] == s.txs[t]
  {
    hide HasEvent, VersionTaken, MaxVersion;
  }

  // ---- what callers were told ----

  /** Every node a call has returned is a row the transaction sees. */
  predicate ResultsSeen(nodes: seq<Node>, tx: Tx) {
    forall n | n in tx.results :: n in nodes || n in tx.pending
  }

  ghost predicate AllSeen(s: State) {
    forall t {:trigger ResultsSeen(s.nodes, s.txs[t])} | t in s.txs :: ResultsSeen(s.nodes, s.txs[t])
  }

  lemma {:induction false} StepSees(h: Hash, s: State, a: Action)
    requires AllSeen(s)
    ensures AllSeen(Apply(h, s, a))
  {
    var r := Apply(h, s, a);
    forall t | t in r.txs
      ensures ResultsSeen(r.nodes, r.txs[t])
    {
      if t in s.txs {
        assert ResultsSeen(s.nodes, s.txs[t]);
        if a.Insert? && a.tx == t {
          InsertSees(s, t, a.id);
        }
      }
    }
  }

  lemma {:induction false} InsertSees(s: State, t: nat, id: string)
    requires t in s.txs && ResultsSeen(s.nodes, s.txs[t])
    ensures var r := DoInsert(s, t, id); t in r.txs ==> ResultsSeen(r.nodes, r.txs[t])
  {
    var tx := s.txs[t];
    if tx.phase.Versioned? && HasEvent(s.nodes + tx.pending, tx.phase.write.event) {
      ByEventFound(s.nodes + tx.pending, tx.phase.write.event);
    }
  }

  lemma {:induction false} RunSees(h: Hash, s: State, actions: seq<Action>)
    requires AllSeen(s)
    ensures AllSeen(Run(h, s, actions))
    decreases |actions|
  {
    if actions != [] {
      StepSees(h, s, actions[0]);
      RunSees(h, Apply(h, s, actions[0]), actions[1..]);
    }
  }

  /** Once a transaction has committed, every node its calls returned is stored, for good. */
  lemma {:induction false} ResultsAreStored(h: Hash, actions: seq<Action>, t: nat, n: Node, later: seq<Action>)
    requires var s := Run(h, Init, actions); t in s.txs && s.txs[t].phase.Ready? && n in s.txs[t].results
    ensures n in Run(h, Apply(h, Run(h, Init, actions), Commit(t)), later).nodes
  {
    var s := Run(h, Init, actions);
    RunSees(h, Init, actions);
    assert ResultsSeen(s.nodes, s.txs[t]);
    RunKeeps(h, Init, actions);
    StepKeepsInv(h, s, Commit(t));
    RunKeeps(h, Apply(h, s, Commit(t)), later);
    assert n in Apply(h, s, Commit(t)).nodes;
  }

  /** A transaction handle with the rows it sees: recordTx as one call, inside a caller's transaction. */
  class Session {
    const hash: Hash
    var nodes: seq<Node>
    var tx: Tx

    constructor (hash: Hash, nodes: seq<Node>)
      requires WellNumbered(nodes) && EventsUnique(nodes)
      ensures this.hash == hash && this.nodes == nodes && tx == Tx({}, [], Ready, []) && TxOk(hash, nodes, tx)
    {
      this.hash, this.nodes, tx := hash, nodes, Tx({}, [], Ready, []);
      new;
      assert nodes + [] == nodes;
    }

    /** SELECT COALESCE(MAX(version), 0) + 1 over the visible rows of the chain. */
    method NextVersion(key: string, step: string) returns (version: nat)
      ensures version == MaxVersion(nodes + tx.pending, key, step) + 1
    {
      var rows := nodes + tx.pending;
      var highest, i := 0, 0;
      while i < |rows|
        invariant 0 <= i <= |rows| && highest == MaxVersion(rows[..i], key, step)
      {
        assert rows[..i + 1][..i] == rows[..i];
        if rows[i].key == key && rows[i].step == step && rows[i].version > highest {
          highest := rows[i].version;
        }
        i := i + 1;
      }
      assert rows[..i] == rows;
      version := highest + 1;
    }

    /** A first delivery appends the next version of its chain; a redelivery returns the stored node
        and leaves the transaction's rows alone. */
    method Record(w: Write, id: string) returns (stored: Node)
      requires TxOk(hash, nodes, tx) && tx.phase.Ready?
      modifies this`tx
      ensures tx == Recorded(hash, nodes, old(tx), w, id)
      ensures TxOk(hash, nodes, tx) && tx.phase.Ready? && LockOf(hash, w.key, w.step) in tx.locks
      ensures tx.results == old(tx.results) + [stored] && stored.event == w.event
      ensures HasEvent(old(nodes + tx.pending), w.event) ==>
        tx.pending == old(tx.pending) && stored in old(nodes + tx.pending)
      ensures !HasEvent(old(nodes + tx.pending), w.event) ==>
        && tx.pending == old(tx.pending) + [stored]
        && stored == Node(id, w.event, w.key, w.step, |Chain(old(nodes + tx.pending), w.key, w.step)| + 1, w.payload)
    {
      tx := tx.(locks := tx.locks + {LockOf(hash, w.key, w.step)});
      var version := NextVersion(w.key, w.step);
      MaxIsCount(nodes + tx.pending, w.key, w.step);
      if HasEvent(nodes + tx.pending, w.event) {
        ByEventFound(nodes + tx.pending, w.event);
        stored := ByEvent(nodes + tx.pending, w.event);
      } else {
        stored := Node(id, w.event, w.key, w.step, version, w.payload);
        AppendKeepsNumbers(nodes + tx.pending, stored);
        assert nodes + (tx.pending + [stored]) == (nodes + tx.pending) + [stored];
        tx := tx.(pending := tx.pending + [stored]);
      }
      tx := tx.(results := tx.results + [stored]);
    }
  }
}
