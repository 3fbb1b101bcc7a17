/** What the human decided, and what it lets the chain do: the stored approval is the last accepted decision, a refusal
    stops plans and tasks, a repeated request answers as before, and the rows written are the planned tasks. */
module ScopeApproval {
  import opened Text
  import opened ScopeChain
  import ScopeSafety

  // ---- one decision ----

  /** The adjustments name known tiers and take in confirmed repositories only. */
  predicate AdjustmentsFit(adjustments: seq<Adjustment>, scope: set<string>) {
    forall i :: 0 <= i < |adjustments| ==>
      adjustments[i].tier == "excluded" || (adjustments[i].tier in {"required", "maybe"} && adjustments[i].repository in scope)
  }

  /** Every repository taken in after the adjustments is confirmed and named once, and there is one. */
  ghost predicate SelectionFits(tiers: seq<Tier>, adjustments: seq<Adjustment>, scope: set<string>) {
    var adjusted := AppliedAll(tiers, adjustments);
    && Distinct(Included(adjusted)) && (forall x :: x in Included(adjusted) ==> x in scope)
    && SelectedNames(adjusted) != []
  }

  /** A decision is accepted exactly about the evidence the classification was made of, and then it is stored as it
      was made; anything else leaves the world as it was. */
  lemma {:induction false} DecisionIsStored(w: World, key: string, decision: string, adjustments: seq<Adjustment>, evidence: nat)
    requires !Replays(w.doc, key)
    ensures var (t, outcome) := ApprovalStep(w, key, decision, adjustments, evidence);
      && (outcome.Accepted? <==>
            && w.doc.classification.Some? && w.doc.evidence == Some(evidence)
            && (decision == "changes_requested"
                || (decision == "approved" && AdjustmentsFit(adjustments, w.scope)
                    && SelectionFits(w.doc.tiers, adjustments, w.scope))))
      && (outcome.Accepted? ==> t.doc.approval == Some(decision))
      && (outcome.Accepted? ==>
            t.doc.tiers == if decision == "approved" then AppliedAll(w.doc.tiers, adjustments) else w.doc.tiers)
      && (!outcome.Accepted? ==> t == w)
      && t.rows == w.rows && t.doc.plan == w.doc.plan && t.scope == w.scope
      && t.doc.classification == w.doc.classification && t.doc.evidence == w.doc.evidence
  {
    ScopeSafety.SelectionMeans(AppliedAll(w.doc.tiers, adjustments));
    FitsMeans(adjustments, w.scope);
    ValidMeans(w.scope, Included(AppliedAll(w.doc.tiers, adjustments)));
    hide AppliedAll, Included, HasSelection, Allowed, AdjustmentsFit, ValidRepositories, SelectedNames, Distinct;
  }

  lemma {:induction false} FitsMeans(adjustments: seq<Adjustment>, scope: set<string>)
    ensures AdjustmentsFit(adjustments, scope) <==> !exists i :: 0 <= i < |adjustments| && !Allowed(adjustments[i], scope)
  {
    forall i | 0 <= i < |adjustments|
      ensures Allowed(adjustments[i], scope)
        <==> (adjustments[i].tier == "excluded"
              || (adjustments[i].tier in {"required", "maybe"} && adjustments[i].repository in scope))
    {
    }
    hide Allowed;
  }

  lemma {:induction false} ValidMeans(scope: set<string>, names: seq<string>)
    ensures ValidRepositories(scope, names) <==> Distinct(names) && forall x :: x in names ==> x in scope
  {
    assert forall i :: 0 <= i < |names| ==> names[i] in names;
  }

  // ---- the last decision of a run ----

  /** An approval request that the service accepts anew. */
  predicate Decides(w: World, a: Action) {
    a.Approve? && !Replays(w.doc, a.key) && ApprovalStep(w, a.key, a.decision, a.adjustments, a.evidence).1.Accepted?
  }

  /** The decision and evidence version of the last such request. */
  function LastDecision(w: World, actions: seq<Action>): Option<string>
    decreases |actions|
  {
    if actions == [] then None
    else
      var later := LastDecision(Apply(w, actions[0]), actions[1..]);
      if later.Some? then later else if Decides(w, actions[0]) then Some(actions[0].decision) else None
  }

  lemma {:induction false} OthersLeaveApproval(w: World, a: Action)
    requires !a.Approve?
    ensures Apply(w, a).doc.approval == w.doc.approval
  {
    hide Classified, ValidRepositories, Selected, Planned, Strings, TasksWithin, Inserted, Keys;
  }

  lemma {:induction false} StepDecides(w: World, a: Action)
    ensures Apply(w, a).doc.approval == if Decides(w, a) then Some(a.decision) else w.doc.approval
  {
    if a.Approve? {
      if Replays(w.doc, a.key) {
        ReplayChangesNothing(w, a);
      } else {
        DecisionIsStored(w, a.key, a.decision, a.adjustments, a.evidence);
      }
      hide ApprovalStep;
    } else {
      OthersLeaveApproval(w, a);
      hide Apply;
    }
  }

  /** After any run the document carries the last accepted decision, or what it carried before if there was none. */
  lemma {:induction false} ApprovalIsLastDecision(w: World, actions: seq<Action>)
    ensures Run(w, actions).doc.approval
      == var last := LastDecision(w, actions); if last.Some? then last else w.doc.approval
    decreases |actions|
  {
    if actions != [] {
      StepDecides(w, actions[0]);
      ApprovalIsLastDecision(Apply(w, actions[0]), actions[1..]);
      hide Apply, Decides;
    }
  }

  /** A document that became approved in a run was approved by a request of that run: accepted anew, with this
      decision, for the evidence then current, and with no other accepted decision after it. */
  lemma {:induction false} ApprovedBySomebody(w: World, actions: seq<Action>) returns (i: nat)
    requires w.doc.approval != Some("approved") && Run(w, actions).doc.approval == Some("approved")
    ensures i < |actions| && actions[i].Approve? && actions[i].decision == "approved"
    ensures var s := Run(w, actions[..i]); Decides(s, actions[i]) && s.doc.evidence == Some(actions[i].evidence)
    ensures LastDecision(Run(w, actions[..i + 1]), actions[i + 1..]).None?
  {
    ApprovalIsLastDecision(w, actions);
    i := LastDeciding(w, actions);
  }

  /** Where the last accepted decision is. */
  lemma {:induction false} LastDeciding(w: World, actions: seq<Action>) returns (i: nat)
    requires LastDecision(w, actions).Some?
    ensures i < |actions| && actions[i].Approve? && Some(actions[i].decision) == LastDecision(w, actions)
    ensures var s := Run(w, actions[..i]); Decides(s, actions[i]) && s.doc.evidence == Some(actions[i].evidence)
    ensures LastDecision(Run(w, actions[..i + 1]), actions[i + 1..]).None?
    decreases |actions|
  {
    var a, s := actions[0], Apply(w, actions[0]);
    if LastDecision(s, actions[1..]).None? {
      DecisionIsStored(w, a.key, a.decision, a.adjustments, a.evidence);
      RunFirst(w, actions[..1]);
      i := 0;
    } else {
      i := LastDeciding(s, actions[1..]);
      SplitRun(w, actions, i);
      i := i + 1;
    }
  }

  lemma {:induction false} RunFirst(w: World, actions: seq<Action>)
    requires actions != []
    ensures Run(w, actions) == Run(Apply(w, actions[0]), actions[1..])
    ensures |actions| == 1 ==> Run(w, actions) == Apply(w, actions[0]) && Run(w, actions[..0]) == w
  {
    hide Apply;
  }

  lemma {:induction false} SplitRun(w: World, actions: seq<Action>, i: nat)
    requires i < |actions| - 1
    ensures Run(w, actions[..i + 1]) == Run(Apply(w, actions[0]), actions[1..][..i])
    ensures Run(w, actions[..i + 2]) == Run(Apply(w, actions[0]), actions[1..][..i + 1])
    ensures actions[i + 2..] == actions[1..][i + 1..]
  {
    RunFirst(w, actions[..i + 1]);
    RunFirst(w, actions[..i + 2]);
    hide Apply, Run;
    assert actions[..i + 1][1..] == actions[1..][..i] && actions[..i + 2][1..] == actions[1..][..i + 1];
  }

  // ---- a refusal ----

  /** No request is accepted as an approval. */
  ghost predicate NotApproved(w: World, actions: seq<Action>)
    decreases |actions|
  {
    actions == []
    || (!(Decides(w, actions[0]) && actions[0].decision == "approved") && NotApproved(Apply(w, actions[0]), actions[1..]))
  }

  /** Without an approval no new plan and no materialization is accepted, and no row is written. */
  lemma {:induction false} UnapprovedDoesNothing(w: World, key: string, planId: nat)
    requires w.doc.approval != Some("approved") && !Replays(w.doc, key)
    ensures !PlanStep(w, key, planId).1.Accepted? && PlanStep(w, key, planId).0 == w
    ensures !MaterializeStep(w, key).1.Accepted? && MaterializeStep(w, key).0.rows == w.rows
  {
  }

  lemma {:induction false} OthersWriteNothing(w: World, a: Action)
    requires !a.Materialize?
    ensures Apply(w, a).rows == w.rows
  {
    hide Classified, ValidRepositories, AppliedAll, Selected, Included, HasSelection, Planned;
  }

  lemma {:induction false} UnapprovedWritesNothing(w: World, a: Action)
    requires w.doc.approval != Some("approved")
    ensures Apply(w, a).rows == w.rows
  {
    if a.Materialize? {
      assert Apply(w, a) == MaterializeStep(w, a.key).0;
      if Replays(w.doc, a.key) {
        ReplayChangesNothing(w, a);
      } else {
        UnapprovedDoesNothing(w, a.key, 0);
      }
    } else {
      OthersWriteNothing(w, a);
    }
    hide Apply, MaterializeStep;
  }

  /** After "changes_requested", whatever is classified, adjusted, planned by the agent or asked for since: until an
      approval is accepted no plan and no materialization but a repeated one is accepted, and no row is written. */
  lemma {:induction false} RefusalHolds(w: World, key: string, adjustments: seq<Adjustment>, evidence: nat,
                                        later: seq<Action>, request: string, planId: nat)
    requires !Replays(w.doc, key) && ApprovalStep(w, key, "changes_requested", adjustments, evidence).1.Accepted?
    requires NotApproved(ApprovalStep(w, key, "changes_requested", adjustments, evidence).0, later)
    ensures var t := Run(ApprovalStep(w, key, "changes_requested", adjustments, evidence).0, later);
      && t.rows == w.rows
      && (!Replays(t.doc, request) ==>
            !PlanStep(t, request, planId).1.Accepted? && !MaterializeStep(t, request).1.Accepted?)
  {
    DecisionIsStored(w, key, "changes_requested", adjustments, evidence);
    var r := ApprovalStep(w, key, "changes_requested", adjustments, evidence).0;
    hide ApprovalStep;
    StaysUnapproved(r, later);
    if !Replays(Run(r, later).doc, request) {
      UnapprovedDoesNothing(Run(r, later), request, planId);
    }
  }

  lemma {:induction false} StaysUnapproved(w: World, actions: seq<Action>)
    requires w.doc.approval != Some("approved") && NotApproved(w, actions)
    ensures Run(w, actions).doc.approval != Some("approved") && Run(w, actions).rows == w.rows
    decreases |actions|
  {
    if actions != [] {
      StepDecides(w, actions[0]);
      UnapprovedWritesNothing(w, actions[0]);
      StaysUnapproved(Apply(w, actions[0]), actions[1..]);
      hide Apply, Decides;
    }
  }

  // ---- repeated requests ----

  function KeyOf(a: Action): string {
    match a
    case Classify(key, _) => key
    case Approve(key, _, _, _) => key
    case MakePlan(key, _) => key
    case Materialize(key) => key
    case _ => ""
  }

  /** The reply of a request; None for what is no request. */
  function ReplyTo(w: World, a: Action): Option<Outcome> {
    match a
    case Classify(key, version) => Some(ClassificationStep(w, key, version).1)
    case Approve(key, decision, adjustments, evidence) => Some(ApprovalStep(w, key, decision, adjustments, evidence).1)
    case MakePlan(key, planId) => Some(PlanStep(w, key, planId).1)
    case Materialize(key) => Some(MaterializeStep(w, key).1)
    case _ => None
  }

  /** The document is as far as its request needs it. */
  predicate Reached(w: World, a: Action) {
    match a
    case Classify(_, _) => w.doc.candidates.Some?
    case Approve(_, _, _, _) => w.doc.classification.Some? && w.doc.evidence.Some?
    case MakePlan(_, _) => w.doc.classification.Some? && w.doc.approval == Some("approved")
    case Materialize(_) => w.doc.plan.Some?
    case _ => false
  }

  lemma {:induction false} ReplayChangesNothing(w: World, a: Action)
    requires KeyOf(a) != "" && KeyOf(a) in w.doc.receipts
    ensures Apply(w, a) == w
    ensures Reached(w, a) ==> ReplyTo(w, a) == Some(Accepted(w.doc.receipts[KeyOf(a)]))
    ensures ReplyTo(w, a).Some? && !Reached(w, a) ==> ReplyTo(w, a) == Some(Conflict)
  {
    hide Classified, ValidRepositories, AppliedAll, Selected, Included, HasSelection, Planned;
  }

  lemma {:induction false} AcceptedIsRecorded(w: World, a: Action)
    requires KeyOf(a) != "" && !Replays(w.doc, KeyOf(a)) && ReplyTo(w, a).Some? && ReplyTo(w, a).value.Accepted?
    ensures var t := Apply(w, a);
      KeyOf(a) in t.doc.receipts && ReplyTo(w, a) == Some(Accepted(t.doc.receipts[KeyOf(a)]))
  {
    hide Classified, ValidRepositories, AppliedAll, Included, HasSelection, Planned;
  }

  lemma {:induction false} ReceiptsStay(w: World, a: Action, key: string)
    requires key != "" && key in w.doc.receipts
    ensures var t := Apply(w, a); key in t.doc.receipts && t.doc.receipts[key] == w.doc.receipts[key]
  {
    if KeyOf(a) == key {
      ReplayChangesNothing(w, a);
    }
    hide Classified, ValidRepositories, AppliedAll, Selected, Included, HasSelection, Planned;
  }

  lemma {:induction false} RunKeepsReceipts(w: World, actions: seq<Action>, key: string)
    requires key != "" && key in w.doc.receipts
    ensures var t := Run(w, actions); key in t.doc.receipts && t.doc.receipts[key] == w.doc.receipts[key]
    decreases |actions|
  {
    if actions != [] {
      ReceiptsStay(w, actions[0], key);
      RunKeepsReceipts(Apply(w, actions[0]), actions[1..], key);
      hide Apply;
    }
  }

  /** A request with a key answers the same whenever it, or any other request with its key, comes again, and changes
      nothing then; the document only has to be where such a request is due. */
  lemma {:induction false} RepeatedRequest(w: World, a: Action, later: seq<Action>, again: Action)
    requires KeyOf(a) != "" && !Replays(w.doc, KeyOf(a)) && ReplyTo(w, a).Some? && ReplyTo(w, a).value.Accepted?
    requires KeyOf(again) == KeyOf(a) && Reached(Run(Apply(w, a), later), again)
    ensures var t := Run(Apply(w, a), later); Apply(t, again) == t && ReplyTo(t, again) == ReplyTo(w, a)
  {
    AcceptedIsRecorded(w, a);
    RunKeepsReceipts(Apply(w, a), later, KeyOf(a));
    ReplayChangesNothing(Run(Apply(w, a), later), again);
    hide Apply, Run, ReplyTo, Reached;
  }

  // ---- the rows of a materialization ----

  /** The tasks a plan stands for: the agent's usable ones in their order, or without any one for each repository. */
  lemma {:induction false} PlannedMeans(plan: Plan)
    ensures Planned(plan) == if UsableTasks(plan.tasks) == [] then DefaultTasks(Strings(plan.repositories)) else UsableTasks(plan.tasks)
    ensures UsableTasks(plan.tasks) == [] <==> forall i :: 0 <= i < |plan.tasks| ==> !IsUsable(plan.tasks[i])
  {
    UsableEmpty(plan.tasks);
  }

  /** A task with a repository and a title that are not blank. */
  predicate IsUsable(t: Task) {
    t.Task? && TrimSpace(t.repository) != "" && TrimSpace(t.title) != ""
  }

  lemma {:induction false} UsableEmpty(tasks: seq<Task>)
    ensures UsableTasks(tasks) == [] <==> forall i :: 0 <= i < |tasks| ==> !IsUsable(tasks[i])
    decreases |tasks|
  {
    if tasks != [] {
      var n := |tasks| - 1;
      UsableEmpty(tasks[..n]);
      assert forall i :: 0 <= i < n ==> tasks[..n][i] == tasks[i];
    }
  }

  /** Usable tasks are picked one by one: together with the next lemma this fixes the whole list. */
  lemma {:induction false} UsableSplits(a: seq<Task>, b: seq<Task>)
    ensures UsableTasks(a + b) == UsableTasks(a) + UsableTasks(b)
    decreases |b|
  {
    if b == [] {
      assert a + b == a;
    } else {
      var n := |b| - 1;
      assert (a + b)[..|a + b| - 1] == a + b[..n];
      UsableSplits(a, b[..n]);
    }
  }

  lemma {:induction false} UsableOne(t: Task)
    ensures UsableTasks([t]) == if IsUsable(t) then [t] else []
  {
    assert [t][..0] == [];
  }

  lemma {:induction false} DefaultIsOneEach(names: seq<string>)
    ensures |DefaultTasks(names)| == |names|
    ensures forall i :: 0 <= i < |names| ==>
      DefaultTasks(names)[i] == Task(names[i], "Implement changes for " + names[i], "", [])
    decreases |names|
  {
    if names != [] {
      var n := |names| - 1;
      DefaultIsOneEach(names[..n]);
    }
  }

  /** What an accepted materialization writes: for every planned task, under the plan's id, its repository and its
      place, a row with its title and its work; rows that were there stay, and no others appear. The receipt lists
      exactly these rows in order. */
  lemma {:induction false} MaterializedRows(w: World, key: string, i: nat)
    requires !Replays(w.doc, key) && MaterializeStep(w, key).1.Accepted?
    requires var plan := w.doc.plan.value; i < |Planned(plan)|
    ensures var (t, outcome) := MaterializeStep(w, key); var plan, task := w.doc.plan.value, Planned(w.doc.plan.value)[i];
      && outcome.receipt.Written? && t.doc.plan.Some? && task.Task? && i < |outcome.receipt.keys|
      && var id := t.doc.plan.value.id;
      && id == (if !plan.id.Foreign? then plan.id else Derived(if plan.version.None? then "v1" else plan.version.value))
      && outcome.receipt.plan == id && outcome.receipt.keys[i] == TaskKey(id, task.repository, i)
      && |outcome.receipt.keys| == |Planned(plan)| && outcome.receipt.repositories == Strings(plan.repositories)
      && TaskKey(id, task.repository, i) in t.rows
      && (TaskKey(id, task.repository, i) !in w.rows ==>
            t.rows[TaskKey(id, task.repository, i)].title == task.title
            && t.rows[TaskKey(id, task.repository, i)].work == task.work)
      && t.doc.materialization == Done(outcome.receipt) && t.doc.approval == w.doc.approval && t.doc.tiers == w.doc.tiers
      && (forall k :: k in t.rows ==> k in w.rows || k in outcome.receipt.keys)
      && (forall k :: k in w.rows ==> k in t.rows && t.rows[k] == w.rows[k])
  {
    var plan := w.doc.plan.value.(id := ResolvedId(w.doc.plan.value));
    var approved := ToSet(Selected(w.doc.tiers).names);
    InsertedMeans(w, plan.id, Planned(plan), approved, |Planned(plan)|);
    KeysAre(plan.id, Planned(plan), |Planned(plan)|);
    assert Planned(plan) == Planned(w.doc.plan.value);
    hide Planned, Inserted, Keys, Selected, Strings, ValidRepositories, TasksWithin;
  }

  lemma {:induction false} KeysAre(id: PlanId, planned: seq<Task>, n: nat)
    requires AllTasks(planned) && n <= |planned|
    ensures |Keys(id, planned, n)| == n
    ensures forall i :: 0 <= i < n ==> Keys(id, planned, n)[i] == TaskKey(id, planned[i].repository, i)
    decreases n
  {
    if n > 0 {
      KeysAre(id, planned, n - 1);
    }
  }

  lemma {:induction false} InsertedMeans(w: World, id: PlanId, planned: seq<Task>, approved: set<string>, n: nat)
    requires AllTasks(planned) && n <= |planned|
    ensures var rows := Inserted(w, id, planned, approved, n);
      && (forall k :: k in w.rows ==> k in rows && rows[k] == w.rows[k])
      && (forall k :: k in rows ==> k in w.rows || k in Keys(id, planned, n))
      && (forall i :: 0 <= i < n ==> RowAt(rows, w.rows, TaskKey(id, planned[i].repository, i), planned[i]))
  {
    var rows := Inserted(w, id, planned, approved, n);
    KeysAre(id, planned, n);
    hide Inserted, Keys;
    forall k
      ensures k in w.rows ==> k in rows && rows[k] == w.rows[k]
      ensures k in rows ==> k in w.rows || k in Keys(id, planned, n)
    {
      ScopeSafety.InsertedRow(w, id, planned, approved, n, k);
      if k in rows && k !in w.rows {
        assert k == Keys(id, planned, n)[k.index];
      }
    }
    forall i | 0 <= i < n
      ensures RowAt(rows, w.rows, TaskKey(id, planned[i].repository, i), planned[i])
    {
      ScopeSafety.InsertedRow(w, id, planned, approved, n, TaskKey(id, planned[i].repository, i));
    }
  }

  predicate RowAt(rows: map<TaskKey, Row>, before: map<TaskKey, Row>, k: TaskKey, t: Task)
    requires t.Task?
  {
    k in rows && (k !in before ==> rows[k].title == t.title && rows[k].work == t.work)
  }
}
