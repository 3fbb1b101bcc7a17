/** Repository scope from candidates to task rows: classification, approval, plan and materialization of
    internal/discovery for one issue. One transaction is one step on the whole document and the tables;
    what the agents and the callers send is a parameter of the step. */
module ScopeChain {
  import opened Text

  // ---- names ----

  predicate Distinct(names: seq<string>) {
    forall i, j :: 0 <= i < j < |names| ==> names[i] != names[j]
  }

  function ToSet(names: seq<string>): set<string> {
    set x | x in names
  }

  /** validateRepositories: every name is in the confirmed scope and no name is repeated. */
  predicate ValidRepositories(scope: set<string>, names: seq<string>) {
    Distinct(names) && forall i :: 0 <= i < |names| ==> names[i] in scope
  }

  // ---- classification ----

  datatype Status = Required | Maybe | Excluded

  // `says` is the agent's own label when it is one of the three.
  datatype Item =
    | NotAnItem
    | Item(repository: string, says: Option<Status>, score: real, fromGraph: bool, excludedByGraph: bool, conflict: bool)

  const REQUIRED_BAR := 0.7
  const MAYBE_BAR := 0.4

  /** The agent's label; without one, the graph's marks and then the score. */
  function Judged(item: Item): Status
    requires item.Item?
  {
    if item.says.Some? then item.says.value
    else if item.excludedByGraph then Excluded
    else if item.fromGraph then Maybe
    else if item.score >= REQUIRED_BAR then Required
    else if item.score >= MAYBE_BAR then Maybe
    else Excluded
  }

  datatype Entry = Entry(repository: string, status: Status, confidence: real, supplemented: bool, conflict: bool)
  datatype Buckets = Buckets(required: seq<Entry>, maybe: seq<Entry>, excluded: seq<Entry>, gap: seq<string>)

  function EntryOf(item: Item, status: Status): Entry
    requires item.Item?
  {
    Entry(item.repository, status, item.score, item.fromGraph, item.conflict)
  }

  /** Inside the confirmed scope a candidate is at least MAYBE; outside it is a hint or stays excluded. */
  function Placed(b: Buckets, item: Item, scope: set<string>): Buckets {
    if item.NotAnItem? then b
    else if item.repository in scope then
      if Judged(item).Required? then b.(required := b.required + [EntryOf(item, Required)])
      else b.(maybe := b.maybe + [EntryOf(item, Maybe)])
    else if Judged(item).Excluded? then b.(excluded := b.excluded + [EntryOf(item, Excluded)])
    else b.(gap := b.gap + [item.repository])
  }

  function Classified(items: seq<Item>, scope: set<string>): Buckets {
    if items == [] then Buckets([], [], [], [])
    else Placed(Classified(items[..|items| - 1], scope), items[|items| - 1], scope)
  }

  function Names(entries: seq<Entry>): seq<string> {
    if entries == [] then [] else Names(entries[..|entries| - 1]) + [entries[|entries| - 1].repository]
  }

  // ---- tiers ----

  // An effective tier as stored; `tier` is any text, since the block is read back from JSON.
  datatype Tier = NotATier | Tier(repository: string, tier: string, adjusted: bool, original: Option<string>)
  datatype Adjustment = Adjustment(repository: string, tier: string)

  function TiersFor(entries: seq<Entry>, tier: string): seq<Tier> {
    if entries == [] then []
    else TiersFor(entries[..|entries| - 1], tier) + [Tier(entries[|entries| - 1].repository, tier, false, None)]
  }

  function TiersOf(b: Buckets): seq<Tier> {
    TiersFor(b.required, "required") + TiersFor(b.maybe, "maybe") + TiersFor(b.excluded, "excluded")
  }

  predicate Includes(t: Tier) {
    t.Tier? && (t.tier == "required" || t.tier == "maybe")
  }

  /** includedTierNames. */
  function Included(tiers: seq<Tier>): seq<string> {
    if tiers == [] then []
    else
      var last := tiers[|tiers| - 1];
      Included(tiers[..|tiers| - 1]) + if Includes(last) && last.repository != "" then [last.repository] else []
  }

  /** tiersHaveSelection. */
  predicate HasSelection(tiers: seq<Tier>) {
    exists i :: 0 <= i < |tiers| && Includes(tiers[i])
  }

  predicate KnownTier(t: Tier) {
    Includes(t) || (t.Tier? && t.tier == "excluded")
  }

  /** The names selectedTierNames collects before it looks at their number. */
  function SelectedNames(tiers: seq<Tier>): seq<string> {
    if tiers == [] then []
    else
      var last := tiers[|tiers| - 1];
      SelectedNames(tiers[..|tiers| - 1]) + if Includes(last) then [last.repository] else []
  }

  datatype Selection = Malformed | Nothing | Chosen(names: seq<string>)

  /** selectedTierNames. */
  function Selected(tiers: seq<Tier>): Selection {
    if exists i :: 0 <= i < |tiers| && !KnownTier(tiers[i]) then Malformed
    else if SelectedNames(tiers) == [] then Nothing
    else Chosen(SelectedNames(tiers))
  }

  function Retiered(t: Tier, a: Adjustment): Tier
    requires t.Tier?
  {
    if t.repository == a.repository then Tier(t.repository, a.tier, true, Some(t.tier)) else t
  }

  function RetieredAll(tiers: seq<Tier>, a: Adjustment): seq<Tier> {
    if tiers == [] then []
    else
      var last := tiers[|tiers| - 1];
      RetieredAll(tiers[..|tiers| - 1], a) + if last.Tier? then [Retiered(last, a)] else []
  }

  predicate Mentions(tiers: seq<Tier>, repository: string) {
    exists i :: 0 <= i < |tiers| && tiers[i].Tier? && tiers[i].repository == repository
  }

  /** applyAdjustment: every tier of that repository is overwritten; an unknown repository is added. */
  function Applied(tiers: seq<Tier>, a: Adjustment): seq<Tier> {
    RetieredAll(tiers, a) + if Mentions(tiers, a.repository) then [] else [Tier(a.repository, a.tier, true, None)]
  }

  predicate Allowed(a: Adjustment, scope: set<string>) {
    a.tier == "excluded" || ((a.tier == "required" || a.tier == "maybe") && a.repository in scope)
  }

  function AppliedAll(tiers: seq<Tier>, adjustments: seq<Adjustment>): seq<Tier> {
    if adjustments == [] then tiers
    else Applied(AppliedAll(tiers, adjustments[..|adjustments| - 1]), adjustments[|adjustments| - 1])
  }

  // ---- the document and the tables ----

  // A fresh random id, the id derived from the issue and a version, or an old id of another shape.
  datatype PlanId = Random(n: nat) | Derived(version: string) | Foreign(text: string)

  datatype Task = NotATask | Task(repository: string, title: string, work: string, dependsOn: seq<string>)

  // An element of `repositories` that is not a string is None; a blank version is None.
  datatype Plan = Plan(id: PlanId, version: Option<string>, repositories: seq<Option<string>>, tasks: seq<Task>)

  datatype TaskKey = TaskKey(plan: PlanId, repository: string, index: nat)

  // `scope` and `approved` are history: the confirmed scope and the approved tiers when the row was written.
  datatype Row = Row(title: string, work: string, scope: set<string>, approved: set<string>)

  datatype Receipt = StepDone(step: nat) | Written(plan: PlanId, keys: seq<TaskKey>, repositories: seq<string>)
  datatype Materialization = NotYet | Failed | Done(receipt: Receipt)

  datatype Doc = Doc(
    candidates: Option<seq<Item>>,
    classification: Option<Buckets>,
    evidence: Option<nat>,
    tiers: seq<Tier>,
    approval: Option<string>,
    plan: Option<Plan>,
    materialization: Materialization,
    receipts: map<string, Receipt>)

  datatype World = World(doc: Doc, scope: set<string>, auditOpen: bool, gap: seq<string>, rows: map<TaskKey, Row>)

  datatype Outcome = Accepted(receipt: Receipt) | Conflict | Drifted | BadDecision | NoRepositories

  predicate Replays(doc: Doc, key: string) {
    key != "" && key in doc.receipts
  }

  function WithReceipt(doc: Doc, key: string, receipt: Receipt): Doc {
    if key == "" then doc else doc.(receipts := doc.receipts[key := receipt])
  }

  // ---- the steps ----

  function ClassificationStep(w: World, key: string, version: nat): (World, Outcome) {
    if w.doc.candidates.None? then (w, Conflict)
    else if Replays(w.doc, key) then (w, Accepted(w.doc.receipts[key]))
    else if w.auditOpen then (w, Conflict)
    else
      var b := Classified(w.doc.candidates.value, w.scope);
      if !ValidRepositories(w.scope, Names(b.required) + Names(b.maybe)) then (w, Conflict)
      else
        var doc := w.doc.(classification := Some(b), evidence := Some(version), tiers := TiersOf(b));
        (w.(doc := WithReceipt(doc, key, StepDone(3)), gap := if b.gap == [] then w.gap else b.gap),
         Accepted(StepDone(3)))
  }

  function ApprovalStep(w: World, key: string, decision: string, adjustments: seq<Adjustment>, evidence: nat)
    : (World, Outcome)
  {
    if w.doc.classification.None? || w.doc.evidence.None? then (w, Conflict)
    else if Replays(w.doc, key) then (w, Accepted(w.doc.receipts[key]))
    else if evidence != w.doc.evidence.value then (w, Drifted)
    else if decision == "changes_requested" then
      (w.(doc := WithReceipt(w.doc.(approval := Some(decision)), key, StepDone(3))), Accepted(StepDone(3)))
    else if decision != "approved" then (w, BadDecision)
    else if exists i :: 0 <= i < |adjustments| && !Allowed(adjustments[i], w.scope) then (w, Conflict)
    else
      var tiers := AppliedAll(w.doc.tiers, adjustments);
      if !ValidRepositories(w.scope, Included(tiers)) then (w, Conflict)
      else if !HasSelection(tiers) then (w, NoRepositories)
      else
        (w.(doc := WithReceipt(w.doc.(approval := Some(decision), tiers := tiers), key, StepDone(3))),
         Accepted(StepDone(3)))
  }

  function Given(names: seq<string>): seq<Option<string>> {
    seq(|names|, i requires 0 <= i < |names| => Some(names[i]))
  }

  function PlanStep(w: World, key: string, planId: nat): (World, Outcome) {
    if w.doc.classification.None? || w.doc.approval != Some("approved") then (w, Conflict)
    else if Replays(w.doc, key) then (w, Accepted(w.doc.receipts[key]))
    else
      match Selected(w.doc.tiers)
      case Malformed => (w, Conflict)
      case Nothing => (w, NoRepositories)
      case Chosen(names) =>
        if !ValidRepositories(w.scope, names) then (w, Conflict)
        else
          var plan := Plan(Random(planId), None, Given(names), []);
          (w.(doc := WithReceipt(w.doc.(plan := Some(plan)), key, StepDone(4))), Accepted(StepDone(4)))
  }

  /** The repositories of the tasks, in order of first occurrence, when the agent sent only tasks. */
  function TaskRepositories(tasks: seq<Task>): seq<string> {
    if tasks == [] then []
    else
      var before, last := TaskRepositories(tasks[..|tasks| - 1]), tasks[|tasks| - 1];
      if last.Task? && last.repository != "" && last.repository !in before then before + [last.repository] else before
  }

  /** The agent's plan is stored as sent; nothing is checked here. */
  function PlanArtifactStep(w: World, repositories: seq<Option<string>>, tasks: seq<Task>): World {
    var listed := if repositories == [] then Given(TaskRepositories(tasks)) else repositories;
    w.(doc := w.doc.(plan := Some(Plan(Derived("v1"), Some("v1"), listed, tasks))))
  }

  function Strings(values: seq<Option<string>>): seq<string> {
    if values == [] then []
    else Strings(values[..|values| - 1]) + if values[|values| - 1].Some? then [values[|values| - 1].value] else []
  }

  /** An id that is not a uuid is replaced by the one derived from the version. */
  function ResolvedId(plan: Plan): PlanId {
    if plan.id.Foreign? then Derived(if plan.version.None? then "v1" else plan.version.value) else plan.id
  }

  predicate Usable(t: Task) {
    t.Task? && !Blank(t.repository) && !Blank(t.title)
  }

  function UsableTasks(tasks: seq<Task>): seq<Task> {
    if tasks == [] then []
    else UsableTasks(tasks[..|tasks| - 1]) + if Usable(tasks[|tasks| - 1]) then [tasks[|tasks| - 1]] else []
  }

  function DefaultTasks(repositories: seq<string>): seq<Task> {
    if repositories == [] then []
    else
      var repository := repositories[|repositories| - 1];
      DefaultTasks(repositories[..|repositories| - 1]) + [Task(repository, "Implement changes for " + repository, "", [])]
  }

  /** The agent's usable tasks; without any, one per repository. */
  function Planned(plan: Plan): seq<Task> {
    if UsableTasks(plan.tasks) == [] then DefaultTasks(Strings(plan.repositories)) else UsableTasks(plan.tasks)
  }

  function KeyAt(id: PlanId, planned: seq<Task>, i: nat): TaskKey
    requires i < |planned| && planned[i].Task?
  {
    TaskKey(id, planned[i].repository, i)
  }

  predicate AllTasks(planned: seq<Task>) {
    forall i :: 0 <= i < |planned| ==> planned[i].Task?
  }

  /** The rows after the inserts; a row that exists already keeps what it says. */
  function Inserted(w: World, id: PlanId, planned: seq<Task>, approved: set<string>, n: nat): map<TaskKey, Row>
    requires AllTasks(planned) && n <= |planned|
  {
    if n == 0 then w.rows
    else
      var rows, key, t := Inserted(w, id, planned, approved, n - 1), KeyAt(id, planned, n - 1), planned[n - 1];
      if key in rows then rows else rows[key := Row(t.title, t.work, w.scope, approved)]
  }

  function Keys(id: PlanId, planned: seq<Task>, n: nat): seq<TaskKey>
    requires AllTasks(planned) && n <= |planned|
  {
    if n == 0 then [] else Keys(id, planned, n - 1) + [KeyAt(id, planned, n - 1)]
  }

  predicate TasksWithin(planned: seq<Task>, names: set<string>) {
    forall i :: 0 <= i < |planned| ==> planned[i].Task? && planned[i].repository in names
  }

  function MaterializeStep(w: World, key: string): (World, Outcome) {
    if w.doc.plan.None? then (w, Conflict)
    else if Replays(w.doc, key) then (w, Accepted(w.doc.receipts[key]))
    else
      var plan := w.doc.plan.value.(id := ResolvedId(w.doc.plan.value));
      var repositories := Strings(plan.repositories);
      if repositories == [] then (w.(doc := w.doc.(plan := Some(plan), materialization := Failed)), Conflict)
      else if !ValidRepositories(w.scope, repositories) then (w, Conflict)
      else
        match Selected(w.doc.tiers)
        case Malformed => (w, Conflict)
        case Nothing => (w, NoRepositories)
        case Chosen(names) =>
          if w.doc.approval != Some("approved") || |ToSet(names)| != |repositories| then (w, Conflict)
          else if exists i :: 0 <= i < |repositories| && repositories[i] !in ToSet(names) then (w, Conflict)
          else if !TasksWithin(Planned(plan), ToSet(names)) then (w, Conflict)
          else (Materialized(w, key, plan, ToSet(names)), Accepted(ReceiptOf(plan)))
  }

  function ReceiptOf(plan: Plan): Receipt
    requires AllTasks(Planned(plan))
  {
    Written(plan.id, Keys(plan.id, Planned(plan), |Planned(plan)|), Strings(plan.repositories))
  }

  function Materialized(w: World, key: string, plan: Plan, approved: set<string>): World
    requires AllTasks(Planned(plan))
  {
    var receipt := ReceiptOf(plan);
    w.(doc := w.doc.(plan := Some(plan), materialization := Done(receipt), receipts := w.doc.receipts[key := receipt]),
       rows := Inserted(w, plan.id, Planned(plan), approved, |Planned(plan)|))
  }

  // ---- runs ----

  datatype Action =
    | Candidates(items: seq<Item>)
    | Classify(key: string, version: nat)
    | Approve(key: string, decision: string, adjustments: seq<Adjustment>, evidence: nat)
    | MakePlan(key: string, planId: nat)
    | AgentPlan(repositories: seq<Option<string>>, tasks: seq<Task>)
    | Materialize(key: string)
    | ChangeScope(scope: set<string>)
    | ChangeAudit(open: bool)

  function Apply(w: World, a: Action): World {
    match a
    case Candidates(items) => w.(doc := w.doc.(candidates := Some(items)))
    case Classify(key, version) => ClassificationStep(w, key, version).0
    case Approve(key, decision, adjustments, evidence) => ApprovalStep(w, key, decision, adjustments, evidence).0
    case MakePlan(key, planId) => PlanStep(w, key, planId).0
    case AgentPlan(repositories, tasks) => PlanArtifactStep(w, repositories, tasks)
    case Materialize(key) => MaterializeStep(w, key).0
    case ChangeScope(scope) => w.(scope := scope)
    case ChangeAudit(open) => w.(auditOpen := open)
  }

  function Run(w: World, actions: seq<Action>): World
    decreases |actions|
  {
    if actions == [] then w else Run(Apply(w, actions[0]), actions[1..])
  }
}
