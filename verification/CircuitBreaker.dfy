/** The autohost loop of the coordinator: one issue is advanced per poll, and per-issue backoff and attempt
    counters slow an issue down that stays on one step. Times are nanoseconds of one process. */
module CircuitBreaker {
  import opened Text

  const SECOND := 1_000_000_000
  const FLOOR := 3 * SECOND
  const RETRY := 10 * SECOND
  const BREAK := 300 * SECOND

  datatype Progress = Progress(
    issue: string, hasAnalysis: bool, sufficient: bool, forced: bool,
    gatePending: bool, gateExpired: bool, gateAIRequested: bool, gateSuggestedCount: nat,
    requiresScopeCheckpoint: bool, hasCandidates: bool, gateManual: bool, gapAuditRecorded: bool,
    hasClassification: bool, approvalState: string, hasPlan: bool, hasMaterialization: bool)

  // How a branch of the main switch ends: without touching the maps, through `working` or through `done`.
  datatype Ending = Waits | Works | Counts

  // The branches of the main switch, in order.
  datatype Branch =
    | Analyse | ForceOn | GateWait | Suggest | Checkpoint | Adopt | Score | AuditGaps | ClassifyTiers | ApproveTiers
    | MakePlan | Materialize | Nothing

  function Chosen(p: Progress): Branch {
    var asked := p.gateAIRequested || p.gateExpired;
    if !p.hasAnalysis then Analyse
    else if !p.sufficient && !p.forced then ForceOn
    else if p.gatePending && !p.gateAIRequested && !p.gateExpired then GateWait
    else if asked && p.gateSuggestedCount == 0 then Suggest
    else if asked && p.requiresScopeCheckpoint then Checkpoint
    else if asked then Adopt
    else if !p.hasCandidates then Score
    else if p.gateManual && !p.hasClassification && !p.gapAuditRecorded then AuditGaps
    else if !p.hasClassification then ClassifyTiers
    else if p.approvalState != "approved" then ApproveTiers
    else if !p.hasPlan then MakePlan
    else if !p.hasMaterialization then Materialize
    else Nothing
  }

  /** autohostStep: the number under which a branch is counted. */
  function AutohostStep(p: Progress): nat {
    if !p.hasAnalysis then 1
    else if !p.sufficient && !p.forced then 2
    else if p.gatePending && !p.gateAIRequested && !p.gateExpired then 3
    else if (p.gateAIRequested || p.gateExpired) && p.gateSuggestedCount == 0 then 4
    else if (p.gateAIRequested || p.gateExpired) && p.requiresScopeCheckpoint then 12
    else if p.gateAIRequested || p.gateExpired then 5
    else if !p.hasCandidates then 6
    else if p.gateManual && !p.hasClassification && !p.gapAuditRecorded then 7
    else if !p.hasClassification then 8
    else if p.approvalState != "approved" then 9
    else if !p.hasPlan then 10
    else if !p.hasMaterialization then 11
    else 0
  }

  /** The number identifies the branch, so two issues are counted together exactly when they take one branch. */
  lemma {:induction false} StepsMatchBranches(p: Progress, q: Progress)
    ensures AutohostStep(p) == AutohostStep(q) <==> Chosen(p) == Chosen(q)
  {
    assert Numbered(AutohostStep(p), Chosen(p)) && Numbered(AutohostStep(q), Chosen(q));
  }

  /** Which prerequisite of an issue is the first one missing, the gate's answers included. */
  lemma {:induction false} BranchMeans(p: Progress)
    ensures var b := Chosen(p);
      var asked := p.gateAIRequested || p.gateExpired;
      var begun := p.hasAnalysis && (p.sufficient || p.forced);
      var passed := begun && !asked && !p.gatePending;
      var scored := passed && p.hasCandidates;
      var classified := scored && p.hasClassification;
      && (b == Analyse <==> !p.hasAnalysis)
      && (b == ForceOn <==> p.hasAnalysis && !p.sufficient && !p.forced)
      && (b == GateWait <==> begun && p.gatePending && !asked)
      && (b == Suggest <==> begun && asked && p.gateSuggestedCount == 0)
      && (b == Checkpoint <==> begun && asked && p.gateSuggestedCount > 0 && p.requiresScopeCheckpoint)
      && (b == Adopt <==> begun && asked && p.gateSuggestedCount > 0 && !p.requiresScopeCheckpoint)
      && (b == Score <==> passed && !p.hasCandidates)
      && (b == AuditGaps <==> scored && !p.hasClassification && p.gateManual && !p.gapAuditRecorded)
      && (b == ClassifyTiers <==> scored && !p.hasClassification && (!p.gateManual || p.gapAuditRecorded))
      && (b == ApproveTiers <==> classified && p.approvalState != "approved")
      && (b == MakePlan <==> classified && p.approvalState == "approved" && !p.hasPlan)
      && (b == Materialize <==> classified && p.approvalState == "approved" && p.hasPlan && !p.hasMaterialization)
      && (b == Nothing <==> classified && p.approvalState == "approved" && p.hasPlan && p.hasMaterialization)
  {
  }

  predicate Numbered(n: nat, b: Branch) {
    match b
    case Nothing => n == 0
    case Analyse => n == 1
    case ForceOn => n == 2
    case GateWait => n == 3
    case Suggest => n == 4
    case Adopt => n == 5
    case Score => n == 6
    case AuditGaps => n == 7
    case ClassifyTiers => n == 8
    case ApproveTiers => n == 9
    case MakePlan => n == 10
    case Materialize => n == 11
    case Checkpoint => n == 12
  }

  function EndingOf(b: Branch): Ending {
    if b in {GateWait, Checkpoint, Nothing} then Waits else if b == Suggest then Works else Counts
  }

  lemma {:induction false} EndingIs(b: Branch)
    ensures EndingOf(b).Waits? <==> b.GateWait? || b.Checkpoint? || b.Nothing?
    ensures EndingOf(b).Works? <==> b.Suggest?
  {
  }

  // ---- the maps ----

  datatype Key = Retry(issue: string, step: nat) | Defer(issue: string, step: nat)

  // `lastStep` is the step of the last success.
  datatype Maps = Maps(backoff: map<string, nat>, attempts: map<Key, nat>, lastStep: map<string, nat>)

  // What the branch's service call returned; an approval without repositories may reopen the candidates.
  datatype Outcome = Succeeded | Failed | Reopened

  datatype Poll = Poll(start: nat, candidates: seq<Progress>, finish: nat, outcome: Outcome)

  function Count(m: Maps, k: Key): nat {
    if k in m.attempts then m.attempts[k] else 0
  }

  predicate Resting(m: Maps, issue: string, now: nat) {
    issue in m.backoff && now < m.backoff[issue]
  }

  /** The first candidate whose backoff is over. */
  function Picked(m: Maps, candidates: seq<Progress>, now: nat): Option<Progress> {
    if candidates == [] then None
    else if Resting(m, candidates[0].issue, now) then Picked(m, candidates[1..], now)
    else Some(candidates[0])
  }

  function Deferred(m: Maps, issue: string, step: nat, finish: nat): Maps {
    var n := Count(m, Defer(issue, step)) + 1;
    m.(attempts := m.attempts[Defer(issue, step) := n],
       backoff := m.backoff[issue := finish + if n >= 3 then BREAK else RETRY])
  }

  function Counted(m: Maps, issue: string, step: nat, finish: nat): Maps {
    var n := if issue in m.lastStep && m.lastStep[issue] == step then Count(m, Retry(issue, step)) + 1 else 1;
    Maps(m.backoff[issue := finish + if n >= 3 then BREAK else FLOOR],
         m.attempts[Retry(issue, step) := n], m.lastStep[issue := step])
  }

  function Worked(m: Maps, issue: string, step: nat, finish: nat): Maps {
    Maps(m.backoff[issue := finish + FLOOR], m.attempts - {Retry(issue, step)}, m.lastStep[issue := step])
  }

  function Executed(m: Maps, p: Progress, finish: nat, outcome: Outcome): Maps {
    var free, step := m.(backoff := m.backoff - {p.issue}), AutohostStep(p);
    match EndingOf(Chosen(p))
    case Waits => free
    case Works => if outcome.Failed? then Deferred(free, p.issue, step, finish) else Worked(free, p.issue, step, finish)
    case Counts =>
      if outcome.Reopened? && Chosen(p).ApproveTiers? then free
      else if outcome.Succeeded? then Counted(free, p.issue, step, finish)
      else Deferred(free, p.issue, step, finish)
  }

  function After(m: Maps, poll: Poll): Maps {
    match Picked(m, poll.candidates, poll.start)
    case None => m
    case Some(p) => Executed(m, p, poll.finish, poll.outcome)
  }

  lemma {:induction false} PickedStep(m: Maps, candidates: seq<Progress>, now: nat, i: nat)
    requires i < |candidates|
    ensures Picked(m, candidates[i..], now)
      == if Resting(m, candidates[i].issue, now) then Picked(m, candidates[i + 1..], now) else Some(candidates[i])
  {
    assert candidates[i..][1..] == candidates[i + 1..];
  }

  lemma {:induction false} PickedEnds(m: Maps, candidates: seq<Progress>, now: nat)
    ensures candidates[0..] == candidates && Picked(m, candidates[|candidates|..], now) == None
  {
  }

  class Automator {
    var backoff: map<string, nat>
    var attempts: map<Key, nat>
    var lastStep: map<string, nat>

    constructor ()
      ensures View() == Maps(map[], map[], map[])
    {
      backoff, attempts, lastStep := map[], map[], map[];
    }

    function View(): Maps
      reads this
    {
      Maps(backoff, attempts, lastStep)
    }

    method DeferBackoff(issue: string, step: nat) returns (wait: nat)
      modifies this`attempts
      ensures attempts == old(attempts)[Defer(issue, step) := Count(old(View()), Defer(issue, step)) + 1]
      ensures wait == if attempts[Defer(issue, step)] >= 3 then BREAK else RETRY
    {
      var key := Defer(issue, step);
      attempts := attempts[key := (if key in attempts then attempts[key] else 0) + 1];
      wait := RETRY;
      if attempts[key] >= 3 {
        wait := BREAK;
      }
    }

    method Done(issue: string, step: nat, failed: bool, finish: nat)
      modifies this
      ensures View() == if failed then Deferred(old(View()), issue, step, finish) else Counted(old(View()), issue, step, finish)
    {
      if failed {
        var wait := DeferBackoff(issue, step);
        backoff := backoff[issue := finish + wait];
        return;
      }
      var key := Retry(issue, step);
      if issue in lastStep && lastStep[issue] == step {
        attempts := attempts[key := (if key in attempts then attempts[key] else 0) + 1];
      } else {
        attempts := attempts[key := 1];
      }
      lastStep := lastStep[issue := step];
      if attempts[key] >= 3 {
        backoff := backoff[issue := finish + BREAK];
        return;
      }
      backoff := backoff[issue := finish + FLOOR];
    }

    method Working(issue: string, step: nat, failed: bool, finish: nat)
      modifies this
      ensures View() == if failed then Deferred(old(View()), issue, step, finish) else Worked(old(View()), issue, step, finish)
    {
      if failed {
        var wait := DeferBackoff(issue, step);
        backoff := backoff[issue := finish + wait];
        return;
      }
      attempts := attempts - {Retry(issue, step)};
      lastStep := lastStep[issue := step];
      backoff := backoff[issue := finish + FLOOR];
    }

    /** One advance of the issue: the branch chosen, then `done`, `working` or no bookkeeping at all. */
    method Execute(p: Progress, finish: nat, outcome: Outcome)
      modifies this
      ensures View() == Executed(old(View()), p, finish, outcome)
    {
      backoff := backoff - {p.issue};
      var step := AutohostStep(p);
      EndingIs(Chosen(p));
      hide AutohostStep, Chosen, EndingOf, Counted, Deferred, Worked;
      match Chosen(p) {
        case GateWait =>
        case Checkpoint =>
        case Nothing =>
        case Suggest => Working(p.issue, step, outcome.Failed?, finish);
        case ApproveTiers =>
          if !outcome.Reopened? {
            Done(p.issue, step, outcome.Failed?, finish);
          }
        case _ => Done(p.issue, step, !outcome.Succeeded?, finish);
      }
    }

    /** step: the oldest candidate that is not resting is advanced. */
    method Step(poll: Poll)
      modifies this
      ensures View() == After(old(View()), poll)
    {
      hide Picked, Executed;
      PickedEnds(View(), poll.candidates, poll.start);
      for i := 0 to |poll.candidates|
        invariant View() == old(View())
        invariant Picked(View(), poll.candidates, poll.start) == Picked(View(), poll.candidates[i..], poll.start)
      {
        var p := poll.candidates[i];
        PickedStep(View(), poll.candidates, poll.start, i);
        if p.issue in backoff && poll.start < backoff[p.issue] {
          continue;
        }
        Execute(p, poll.finish, poll.outcome);
        return;
      }
    }
  }

  // ---- the rate bound ----

  /** Polls follow one another: each starts after the one before it finished. */
  predicate Ordered(clock: nat, polls: seq<Poll>)
    decreases |polls|
  {
    polls == [] || (clock <= polls[0].start <= polls[0].finish && Ordered(polls[0].finish, polls[1..]))
  }

  predicate Executes(m: Maps, poll: Poll, issue: string) {
    Picked(m, poll.candidates, poll.start).Some? && Picked(m, poll.candidates, poll.start).value.issue == issue
  }

  /** When the issue was executed. */
  function Starts(m: Maps, polls: seq<Poll>, issue: string): seq<nat>
    decreases |polls|
  {
    if polls == [] then []
    else (if Executes(m, polls[0], issue) then [polls[0].start] else []) + Starts(After(m, polls[0]), polls[1..], issue)
  }

  /** Every execution of the issue is this step, through `done`. */
  predicate StaysOn(m: Maps, polls: seq<Poll>, issue: string, step: nat)
    decreases |polls|
  {
    polls == []
    || ((Executes(m, polls[0], issue) ==>
           var p := Picked(m, polls[0].candidates, polls[0].start).value;
           AutohostStep(p) == step && EndingOf(Chosen(p)).Counts? && !polls[0].outcome.Reopened?)
        && StaysOn(After(m, polls[0]), polls[1..], issue, step))
  }

  function Left(n: nat): nat {
    if n < 2 then 2 - n else 0
  }

  /** How many waits of this issue on this step can still be shorter than five minutes. */
  function Budget(m: Maps, issue: string, step: nat): nat {
    Left(Count(m, Defer(issue, step)))
    + if issue in m.lastStep && m.lastStep[issue] == step then Left(Count(m, Retry(issue, step))) else 2
  }

  /** One short wait of the budget is used up, or the issue rests for five minutes. */
  predicate Rests(m: Maps, m': Maps, issue: string, step: nat, start: nat) {
    issue in m'.backoff && m'.backoff[issue] >= start
    && (Budget(m', issue, step) == Budget(m, issue, step) - 1
        || (Budget(m', issue, step) == Budget(m, issue, step) && m'.backoff[issue] >= start + BREAK))
  }

  lemma {:induction false} DeferredRests(m: Maps, issue: string, step: nat, finish: nat)
    ensures Rests(m, Deferred(m, issue, step, finish), issue, step, finish)
  {
    assert Defer(issue, step) != Retry(issue, step);
  }

  lemma {:induction false} CountedRests(m: Maps, issue: string, step: nat, finish: nat)
    ensures Rests(m, Counted(m, issue, step, finish), issue, step, finish)
  {
    assert Defer(issue, step) != Retry(issue, step);
  }

  lemma {:induction false} ExecutionRests(m: Maps, poll: Poll, issue: string, step: nat)
    requires poll.start <= poll.finish && Executes(m, poll, issue)
    requires StaysOn(m, [poll], issue, step)
    ensures Rests(m, After(m, poll), issue, step, poll.start)
  {
    var free := m.(backoff := m.backoff - {issue});
    assert Budget(free, issue, step) == Budget(m, issue, step);
    DeferredRests(free, issue, step, poll.finish);
    CountedRests(free, issue, step, poll.finish);
    assert After(m, poll) in {Deferred(free, issue, step, poll.finish), Counted(free, issue, step, poll.finish)};
  }

  predicate SameFor(m: Maps, m': Maps, issue: string, step: nat) {
    Count(m', Defer(issue, step)) == Count(m, Defer(issue, step))
    && Count(m', Retry(issue, step)) == Count(m, Retry(issue, step))
    && (issue in m'.lastStep <==> issue in m.lastStep)
    && (issue in m.lastStep ==> m'.lastStep[issue] == m.lastStep[issue])
    && (issue in m'.backoff <==> issue in m.backoff)
    && (issue in m.backoff ==> m'.backoff[issue] == m.backoff[issue])
  }

  lemma {:induction false} DeferredElsewhere(m: Maps, other: string, n: nat, finish: nat, issue: string, step: nat)
    requires other != issue
    ensures SameFor(m, Deferred(m, other, n, finish), issue, step)
  {
  }

  lemma {:induction false} CountedElsewhere(m: Maps, other: string, n: nat, finish: nat, issue: string, step: nat)
    requires other != issue
    ensures SameFor(m, Counted(m, other, n, finish), issue, step)
  {
  }

  lemma {:induction false} WorkedElsewhere(m: Maps, other: string, n: nat, finish: nat, issue: string, step: nat)
    requires other != issue
    ensures SameFor(m, Worked(m, other, n, finish), issue, step)
  {
    assert Defer(issue, step) != Retry(other, n) && Retry(issue, step) != Retry(other, n);
  }

  /** An execution of another issue changes nothing of this one. */
  lemma {:induction false} OthersRest(m: Maps, poll: Poll, issue: string, step: nat)
    requires !Executes(m, poll, issue)
    ensures SameFor(m, After(m, poll), issue, step)
  {
    var picked := Picked(m, poll.candidates, poll.start);
    if picked.Some? {
      var other, n := picked.value.issue, AutohostStep(picked.value);
      var free := m.(backoff := m.backoff - {other});
      assert SameFor(m, free, issue, step);
      DeferredElsewhere(free, other, n, poll.finish, issue, step);
      CountedElsewhere(free, other, n, poll.finish, issue, step);
      WorkedElsewhere(free, other, n, poll.finish, issue, step);
      assert After(m, poll) in {free, Deferred(free, other, n, poll.finish), Counted(free, other, n, poll.finish),
                                Worked(free, other, n, poll.finish)};
    }
  }

  lemma {:induction false} PickedIsAwake(m: Maps, candidates: seq<Progress>, now: nat)
    ensures Picked(m, candidates, now).Some? ==> !Resting(m, Picked(m, candidates, now).value.issue, now)
  {
    if candidates != [] && Resting(m, candidates[0].issue, now) {
      PickedIsAwake(m, candidates[1..], now);
    }
  }

  /** n executions from `earliest` on need five minutes for each wait beyond the budget. */
  predicate AddsUp(starts: seq<nat>, budget: nat, earliest: nat) {
    starts == []
    || (starts[0] >= earliest && starts[|starts| - 1] >= starts[0] + (|starts| - 1 - budget) * BREAK
        && starts[|starts| - 1] >= starts[0])
  }

  lemma {:induction false} OneMore(start: nat, rest: seq<nat>, budget: nat, budget': nat, earliest: nat, next: nat)
    requires AddsUp(rest, budget', next) && start >= earliest && next >= start
    requires budget' == budget - 1 || (budget' == budget && next >= start + BREAK)
    ensures AddsUp([start] + rest, budget, earliest)
  {
    if rest != [] {
      var starts := [start] + rest;
      assert starts[0] == start && starts[|starts| - 1] == rest[|rest| - 1];
    }
  }

  lemma {:induction false} LongWaitsAddUp(clock: nat, m: Maps, polls: seq<Poll>, issue: string, step: nat, earliest: nat)
    requires Ordered(clock, polls) && StaysOn(m, polls, issue, step)
    requires earliest <= clock || (issue in m.backoff && earliest <= m.backoff[issue])
    ensures AddsUp(Starts(m, polls, issue), Budget(m, issue, step), earliest)
    decreases |polls|
  {
    if polls != [] {
      var poll, m' := polls[0], After(m, polls[0]);
      if Executes(m, poll, issue) {
        PickedIsAwake(m, poll.candidates, poll.start);
        FirstStaysOn(m, polls, issue, step);
        ExecutionRests(m, poll, issue, step);
        var next := m'.backoff[issue];
        LongWaitsAddUp(poll.finish, m', polls[1..], issue, step, next);
        OneMore(poll.start, Starts(m', polls[1..], issue), Budget(m, issue, step), Budget(m', issue, step), earliest, next);
      } else {
        OthersRest(m, poll, issue, step);
        LongWaitsAddUp(poll.finish, m', polls[1..], issue, step, earliest);
        assert [] + Starts(m', polls[1..], issue) == Starts(m', polls[1..], issue);
      }
    }
  }

  lemma {:induction false} FirstStaysOn(m: Maps, polls: seq<Poll>, issue: string, step: nat)
    requires polls != [] && StaysOn(m, polls, issue, step)
    ensures StaysOn(m, [polls[0]], issue, step)
  {
    assert [polls[0]][1..] == [];
  }

  predicate Within(starts: seq<nat>, from: nat, to: nat) {
    forall i :: 0 <= i < |starts| ==> from <= starts[i] <= to
  }

  /** Whatever the maps held before and whatever the other issues do: while an issue stays on one counted step,
      it is executed at most 5 + T / 300 times in T seconds. */
  lemma {:induction false} RateBound(clock: nat, m: Maps, polls: seq<Poll>, issue: string, step: nat, from: nat, to: nat)
    requires Ordered(clock, polls) && StaysOn(m, polls, issue, step)
    requires from <= to
    requires Within(Starts(m, polls, issue), from, to)
    ensures |Starts(m, polls, issue)| <= 5 + (to - from) / BREAK
  {
    var starts := Starts(m, polls, issue);
    LongWaitsAddUp(clock, m, polls, issue, step, 0);
    if starts != [] {
      var first, last := starts[0], starts[|starts| - 1];
      assert from <= first <= to;
      assert from <= last <= to;
      Divided(|starts|, Budget(m, issue, step), last - first, to - from);
    }
  }

  lemma {:induction false} Divided(n: nat, budget: nat, span: int, window: nat)
    requires budget <= 4 && span >= (n - 1 - budget) * BREAK && span <= window
    ensures n <= 5 + window / BREAK
  {
    assert (n - 1 - budget) * BREAK >= (n - 5) * BREAK;
  }

  // ---- who is executed, and the exact waits ----

  /** A poll executes the first candidate without a running wait, and nobody exactly when all are waiting. */
  lemma {:induction false} FirstAwakeIsPicked(m: Maps, candidates: seq<Progress>, now: nat, i: nat)
    requires i <= |candidates|
    requires forall k :: 0 <= k < i ==> candidates[k].issue in m.backoff && now < m.backoff[candidates[k].issue]
    requires i < |candidates| ==> !(candidates[i].issue in m.backoff && now < m.backoff[candidates[i].issue])
    ensures Picked(m, candidates, now) == if i < |candidates| then Some(candidates[i]) else None
    decreases i
  {
    if i > 0 {
      FirstAwakeIsPicked(m, candidates[1..], now, i - 1);
    }
  }

  function Final(m: Maps, polls: seq<Poll>): Maps
    decreases |polls|
  {
    if polls == [] then m else Final(After(m, polls[0]), polls[1..])
  }

  /** How many executions of the issue succeeded, or did not. */
  function Ended(m: Maps, polls: seq<Poll>, issue: string, success: bool): nat
    decreases |polls|
  {
    if polls == [] then 0
    else (if Executes(m, polls[0], issue) && polls[0].outcome.Succeeded? == success then 1 else 0)
         + Ended(After(m, polls[0]), polls[1..], issue, success)
  }

  /** Successes of the step in a row so far. */
  function Streak(m: Maps, issue: string, step: nat): nat {
    if issue in m.lastStep && m.lastStep[issue] == step then Count(m, Retry(issue, step)) else 0
  }

  lemma {:induction false} ExecutionCounts(m: Maps, poll: Poll, issue: string, step: nat)
    requires Executes(m, poll, issue) && StaysOn(m, [poll], issue, step)
    ensures var t := After(m, poll);
      if poll.outcome.Succeeded? then
        && Streak(t, issue, step) == Streak(m, issue, step) + 1
        && Count(t, Defer(issue, step)) == Count(m, Defer(issue, step))
        && issue in t.backoff
        && t.backoff[issue] == poll.finish + (if Streak(m, issue, step) < 2 then 3 * SECOND else 300 * SECOND)
      else
        && Streak(t, issue, step) == Streak(m, issue, step)
        && Count(t, Defer(issue, step)) == Count(m, Defer(issue, step)) + 1
        && issue in t.backoff
        && t.backoff[issue] == poll.finish + (if Count(m, Defer(issue, step)) < 2 then 10 * SECOND else 300 * SECOND)
  {
    var free := m.(backoff := m.backoff - {issue});
    assert Defer(issue, step) != Retry(issue, step);
    assert After(m, poll)
      == if poll.outcome.Succeeded? then Counted(free, issue, step, poll.finish) else Deferred(free, issue, step, poll.finish);
    hide After, Executed, Picked, Chosen, AutohostStep, EndingOf;
  }

  /** While an issue stays on one step, the n-th success in a row is followed by three seconds for n < 3 and by five
      minutes from then on, the n-th failure by ten seconds and then five minutes, whatever other issues do. */
  lemma {:induction false} WaitIsExact(m: Maps, polls: seq<Poll>, poll: Poll, issue: string, step: nat)
    requires StaysOn(m, polls + [poll], issue, step) && Executes(Final(m, polls), poll, issue)
    ensures var t := Final(m, polls + [poll]);
      issue in t.backoff && t.backoff[issue] == poll.finish +
        if poll.outcome.Succeeded? then
          if Streak(m, issue, step) + Ended(m, polls, issue, true) + 1 < 3 then 3 * SECOND else 300 * SECOND
        else
          if Count(m, Defer(issue, step)) + Ended(m, polls, issue, false) + 1 < 3 then 10 * SECOND else 300 * SECOND
    decreases |polls|
  {
    if polls == [] {
      assert [] + [poll] == [poll] && [poll][1..] == [];
      FinalOfOne(m, poll);
      ExecutionCounts(m, poll, issue, step);
    } else {
      var m' := After(m, polls[0]);
      assert (polls + [poll])[1..] == polls[1..] + [poll] && (polls + [poll])[0] == polls[0];
      WaitIsExact(m', polls[1..], poll, issue, step);
      if Executes(m, polls[0], issue) {
        FirstStaysOn(m, polls + [poll], issue, step);
        ExecutionCounts(m, polls[0], issue, step);
      } else {
        OthersRest(m, polls[0], issue, step);
      }
      hide After, Executes, Streak, Count;
    }
  }

  lemma {:induction false} FinalOfOne(m: Maps, poll: Poll)
    ensures Final(m, [poll]) == After(m, poll)
  {
    assert [poll][1..] == [];
    hide After;
  }

  /** What is not counted: a branch that waits, and an approval that reopened the candidates, drop the issue's wait and
      touch nothing else; a suggestion waits three seconds and ends the streak of its step, or is put off like any
      failure. Reopening is a failure anywhere else. */
  lemma {:induction false} UncountedIs(m: Maps, poll: Poll)
    requires Picked(m, poll.candidates, poll.start).Some?
    ensures var p, t := Picked(m, poll.candidates, poll.start).value, After(m, poll);
      && (Chosen(p) in {GateWait, Checkpoint, Nothing} || (Chosen(p) == ApproveTiers && poll.outcome == Reopened) ==>
            t == m.(backoff := m.backoff - {p.issue}))
      && (Chosen(p) == Suggest && !poll.outcome.Failed? ==>
            && t.backoff == m.backoff[p.issue := poll.finish + 3 * SECOND]
            && Streak(t, p.issue, 4) == 0 && t.lastStep == m.lastStep[p.issue := 4]
            && forall k | k != Retry(p.issue, 4) :: Count(t, k) == Count(m, k))
      && (Chosen(p) == Suggest && poll.outcome.Failed? ==>
            && t.backoff == m.backoff[p.issue :=
                 poll.finish + if Count(m, Defer(p.issue, 4)) < 2 then 10 * SECOND else 300 * SECOND]
            && Count(t, Defer(p.issue, 4)) == Count(m, Defer(p.issue, 4)) + 1 && t.lastStep == m.lastStep)
      && (EndingOf(Chosen(p)).Counts? && Chosen(p) != ApproveTiers && poll.outcome == Reopened ==>
            t == After(m, poll.(outcome := Outcome.Failed)))
  {
    var p := Picked(m, poll.candidates, poll.start).value;
    assert Numbered(AutohostStep(p), Chosen(p));
    var until := poll.finish +
      if !poll.outcome.Failed? then FLOOR else if Count(m, Defer(p.issue, 4)) < 2 then RETRY else BREAK;
    assert (m.backoff - {p.issue})[p.issue := until] == m.backoff[p.issue := until];
    hide AutohostStep, Chosen, Picked;
  }
}
