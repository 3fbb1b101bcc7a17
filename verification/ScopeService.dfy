/** The discovery service over one issue's document and tables: the loops of classification, approval, plan
    and materialization, each method against its step of ScopeChain. */
module ScopeService {
  import opened Text
  import opened ScopeChain
  import ScopeSafety

  /** validateRepositories: one pass with the set of names seen so far. */
  method ValidateRepositories(scope: set<string>, names: seq<string>) returns (ok: bool)
    ensures ok <==> ValidRepositories(scope, names)
  {
    var seen: set<string> := {};
    for i := 0 to |names|
      invariant ValidRepositories(scope, names[..i])
      invariant forall x :: x in seen <==> x in names[..i]
    {
      assert names[..i + 1] == names[..i] + [names[i]];
      if names[i] !in scope || names[i] in seen {
        return false;
      }
      seen := seen + {names[i]};
    }
    assert names[..|names|] == names;
    return true;
  }

  /** selectedTierNames: the switch stops at the first entry it does not know. */
  method SelectTierNames(tiers: seq<Tier>) returns (selection: Selection)
    ensures selection == Selected(tiers)
  {
    var names: seq<string> := [];
    for i := 0 to |tiers|
      invariant forall j :: 0 <= j < i ==> KnownTier(tiers[j])
      invariant names == SelectedNames(tiers[..i])
    {
      assert tiers[..i + 1][..i] == tiers[..i];
      if tiers[i].NotATier? {
        return Malformed;
      }
      if tiers[i].tier == "required" || tiers[i].tier == "maybe" {
        names := names + [tiers[i].repository];
      } else if tiers[i].tier != "excluded" {
        return Malformed;
      }
    }
    assert tiers[..|tiers|] == tiers;
    return if |names| == 0 then Nothing else Chosen(names);
  }

  /** includedTierNames. */
  method IncludedTierNames(tiers: seq<Tier>) returns (names: seq<string>)
    ensures names == Included(tiers)
  {
    names := [];
    for i := 0 to |tiers|
      invariant names == Included(tiers[..i])
    {
      assert tiers[..i + 1][..i] == tiers[..i];
      if tiers[i].NotATier? {
        continue;
      }
      if tiers[i].tier != "required" && tiers[i].tier != "maybe" {
        continue;
      }
      if tiers[i].repository != "" {
        names := names + [tiers[i].repository];
      }
    }
    assert tiers[..|tiers|] == tiers;
  }

  /** tiersHaveSelection. */
  method TiersHaveSelection(tiers: seq<Tier>) returns (any: bool)
    ensures any == HasSelection(tiers)
  {
    for i := 0 to |tiers|
      invariant forall j :: 0 <= j < i ==> !Includes(tiers[j])
    {
      if tiers[i].Tier? && (tiers[i].tier == "required" || tiers[i].tier == "maybe") {
        return true;
      }
    }
    return false;
  }

  /** applyAdjustment, with its `found` flag. */
  method ApplyAdjustment(tiers: seq<Tier>, a: Adjustment) returns (result: seq<Tier>)
    ensures result == Applied(tiers, a)
  {
    result := [];
    var found := false;
    for i := 0 to |tiers|
      invariant result == RetieredAll(tiers[..i], a)
      invariant found <==> exists j :: 0 <= j < i && tiers[j].Tier? && tiers[j].repository == a.repository
    {
      assert tiers[..i + 1][..i] == tiers[..i];
      if tiers[i].NotATier? {
        continue;
      }
      var tier := tiers[i];
      if tier.repository == a.repository {
        tier := tier.(adjusted := true, original := Some(tier.tier), tier := a.tier);
        found := true;
      }
      result := result + [tier];
    }
    assert tiers[..|tiers|] == tiers;
    if !found {
      result := result + [Tier(a.repository, a.tier, true, None)];
    }
  }

  lemma {:induction false} AppliedStep(tiers: seq<Tier>, adjustments: seq<Adjustment>, i: nat)
    requires i < |adjustments|
    ensures AppliedAll(tiers, adjustments[..i + 1]) == Applied(AppliedAll(tiers, adjustments[..i]), adjustments[i])
  {
    assert adjustments[..i + 1][..i] == adjustments[..i];
  }

  lemma {:induction false} AppliedEnds(tiers: seq<Tier>, adjustments: seq<Adjustment>)
    ensures AppliedAll(tiers, adjustments[..0]) == tiers && adjustments[..|adjustments|] == adjustments
  {
  }

  lemma {:induction false} OneIsValid(scope: set<string>, name: string)
    ensures ValidRepositories(scope, [name]) <==> name in scope
  {
    assert [name][0] == name;
  }

  /** One of three tiers; a repository taken in must be in the confirmed scope. */
  method CheckAdjustment(scope: set<string>, a: Adjustment) returns (allowed: bool)
    ensures allowed <==> Allowed(a, scope)
  {
    if a.tier == "excluded" {
      return true;
    }
    if a.tier != "required" && a.tier != "maybe" {
      return false;
    }
    OneIsValid(scope, a.repository);
    allowed := ValidateRepositories(scope, [a.repository]);
  }

  /** The adjustments of an approval, applied one by one to a local list. */
  method ApplyAdjustments(scope: set<string>, tiers: seq<Tier>, adjustments: seq<Adjustment>)
    returns (result: Option<seq<Tier>>)
    ensures result.None? <==> exists i :: 0 <= i < |adjustments| && !Allowed(adjustments[i], scope)
    ensures result.Some? ==> result.value == AppliedAll(tiers, adjustments)
  {
    hide *;
    var current := tiers;
    AppliedEnds(tiers, adjustments);
    for i := 0 to |adjustments|
      invariant forall j :: 0 <= j < i ==> Allowed(adjustments[j], scope)
      invariant current == AppliedAll(tiers, adjustments[..i])
    {
      var allowed := CheckAdjustment(scope, adjustments[i]);
      if !allowed {
        return None;
      }
      AppliedStep(tiers, adjustments, i);
      current := ApplyAdjustment(current, adjustments[i]);
    }
    return Some(current);
  }

  /** The classification loop: four lists filled in one pass over the candidates. */
  method SortCandidates(items: seq<Item>, confirmed: set<string>) returns (buckets: Buckets)
    ensures buckets == Classified(items, confirmed)
  {
    var required: seq<Entry>, maybe: seq<Entry>, excluded: seq<Entry>, gap: seq<string> := [], [], [], [];
    for i := 0 to |items|
      invariant Buckets(required, maybe, excluded, gap) == Classified(items[..i], confirmed)
    {
      assert items[..i + 1][..i] == items[..i];
      var item := items[i];
      if item.NotAnItem? {
        continue;
      }
      var status := Excluded;
      if item.says.Some? {
        status := item.says.value;
      } else if item.excludedByGraph {
      } else if item.fromGraph {
        status := Maybe;
      } else if item.score >= REQUIRED_BAR {
        status := Required;
      } else if item.score >= MAYBE_BAR {
        status := Maybe;
      }
      if item.repository in confirmed {
        if status != Required {
          status := Maybe;
        }
      } else if status == Required || status == Maybe {
        gap := gap + [item.repository];
        continue;
      }
      var entry := Entry(item.repository, status, item.score, item.fromGraph, item.conflict);
      match status {
        case Required => required := required + [entry];
        case Maybe => maybe := maybe + [entry];
        case Excluded => excluded := excluded + [entry];
      }
    }
    assert items[..|items|] == items;
    buckets := Buckets(required, maybe, excluded, gap);
  }

  method NamesOf(entries: seq<Entry>) returns (names: seq<string>)
    ensures names == Names(entries)
  {
    names := [];
    for i := 0 to |entries|
      invariant names == Names(entries[..i])
    {
      assert entries[..i + 1][..i] == entries[..i];
      names := names + [entries[i].repository];
    }
    assert entries[..|entries|] == entries;
  }

  method StringsOf(values: seq<Option<string>>) returns (names: seq<string>)
    ensures names == Strings(values)
  {
    names := [];
    for i := 0 to |values|
      invariant names == Strings(values[..i])
    {
      assert values[..i + 1][..i] == values[..i];
      if values[i].Some? {
        names := names + [values[i].value];
      }
    }
    assert values[..|values|] == values;
  }

  /** The repositories of an agent plan that lists none, collected with a set of names seen. */
  method RepositoriesOfTasks(tasks: seq<Task>) returns (names: seq<string>)
    ensures names == TaskRepositories(tasks)
  {
    names := [];
    var seen: set<string> := {};
    for i := 0 to |tasks|
      invariant names == TaskRepositories(tasks[..i])
      invariant forall x :: x in seen <==> x in names
    {
      assert tasks[..i + 1][..i] == tasks[..i];
      if tasks[i].Task? && tasks[i].repository != "" && tasks[i].repository !in seen {
        seen := seen + {tasks[i].repository};
        names := names + [tasks[i].repository];
      }
    }
    assert tasks[..|tasks|] == tasks;
  }

  /** The planned tasks: the usable ones, or one for each repository. */
  method PlanTasks(plan: Plan) returns (planned: seq<Task>)
    ensures planned == Planned(plan)
  {
    planned := [];
    for i := 0 to |plan.tasks|
      invariant planned == UsableTasks(plan.tasks[..i])
    {
      assert plan.tasks[..i + 1][..i] == plan.tasks[..i];
      if plan.tasks[i].NotATask? {
        continue;
      }
      if TrimSpace(plan.tasks[i].repository) == "" || TrimSpace(plan.tasks[i].title) == "" {
        continue;
      }
      planned := planned + [plan.tasks[i]];
    }
    assert plan.tasks[..|plan.tasks|] == plan.tasks;
    if |planned| == 0 {
      var repositories := StringsOf(plan.repositories);
      for i := 0 to |repositories|
        invariant planned == DefaultTasks(repositories[..i])
      {
        assert repositories[..i + 1][..i] == repositories[..i];
        planned := planned + [Task(repositories[i], "Implement changes for " + repositories[i], "", [])];
      }
      assert repositories[..|repositories|] == repositories;
    }
  }

  class Discovery {
    var doc: Doc
    var scope: set<string>
    var auditOpen: bool
    var gap: seq<string>
    var rows: map<TaskKey, Row>

    constructor (scope: set<string>)
      ensures View() == World(Doc(None, None, None, [], None, None, NotYet, map[]), scope, false, [], map[])
    {
      doc := Doc(None, None, None, [], None, None, NotYet, map[]);
      this.scope := scope;
      auditOpen, gap, rows := false, [], map[];
    }

    function View(): World
      reads this
    {
      World(doc, scope, auditOpen, gap, rows)
    }

    method Classification(key: string, version: nat) returns (outcome: Outcome)
      modifies this
      ensures (View(), outcome) == ClassificationStep(old(View()), key, version)
    {
      if doc.candidates.None? {
        return Conflict;
      }
      if Replays(doc, key) {
        return Accepted(doc.receipts[key]);
      }
      if auditOpen {
        return Conflict;
      }
      var b := SortCandidates(doc.candidates.value, scope);
      var required := NamesOf(b.required);
      var maybe := NamesOf(b.maybe);
      var valid := ValidateRepositories(scope, required + maybe);
      if !valid {
        return Conflict;
      }
      if |b.gap| > 0 {
        gap := b.gap;
      }
      doc := doc.(classification := Some(b), evidence := Some(version), tiers := TiersOf(b));
      doc := WithReceipt(doc, key, StepDone(3));
      return Accepted(StepDone(3));
    }

    /** Nothing is stored before every check has passed. */
    method Approval(key: string, decision: string, adjustments: seq<Adjustment>, evidence: nat) returns (outcome: Outcome)
      modifies this
      ensures (View(), outcome) == ApprovalStep(old(View()), key, decision, adjustments, evidence)
    {
      hide AppliedAll, ValidRepositories, Included, HasSelection, Allowed;
      if doc.classification.None? || doc.evidence.None? {
        return Conflict;
      }
      if Replays(doc, key) {
        return Accepted(doc.receipts[key]);
      }
      if evidence != doc.evidence.value {
        return Drifted;
      }
      if decision != "approved" && decision != "changes_requested" {
        return BadDecision;
      }
      var tiers := doc.tiers;
      if decision == "approved" {
        var adjusted := ApplyAdjustments(scope, tiers, adjustments);
        if adjusted.None? {
          return Conflict;
        }
        tiers := adjusted.value;
        var included := IncludedTierNames(tiers);
        var valid := ValidateRepositories(scope, included);
        if !valid {
          return Conflict;
        }
        var any := TiersHaveSelection(tiers);
        if !any {
          return NoRepositories;
        }
      }
      doc := WithReceipt(doc.(approval := Some(decision), tiers := tiers), key, StepDone(3));
      return Accepted(StepDone(3));
    }

    method Plan(key: string, planId: nat) returns (outcome: Outcome)
      modifies this
      ensures (View(), outcome) == PlanStep(old(View()), key, planId)
    {
      if doc.classification.None? || doc.approval != Some("approved") {
        return Conflict;
      }
      if Replays(doc, key) {
        return Accepted(doc.receipts[key]);
      }
      var selection := SelectTierNames(doc.tiers);
      if selection.Malformed? {
        return Conflict;
      }
      if selection.Nothing? {
        return NoRepositories;
      }
      var valid := ValidateRepositories(scope, selection.names);
      if !valid {
        return Conflict;
      }
      doc := WithReceipt(doc.(plan := Some(ScopeChain.Plan(Random(planId), None, Given(selection.names), []))), key, StepDone(4));
      return Accepted(StepDone(4));
    }

    /** The plan case of ApplyPlanningArtifact. */
    method ApplyPlan(repositories: seq<Option<string>>, tasks: seq<Task>)
      modifies this
      ensures View() == PlanArtifactStep(old(View()), repositories, tasks)
    {
      var listed := repositories;
      if |listed| == 0 {
        var names := RepositoriesOfTasks(tasks);
        listed := Given(names);
      }
      doc := doc.(plan := Some(ScopeChain.Plan(Derived("v1"), Some("v1"), listed, tasks)));
    }

    method Materialize(key: string) returns (outcome: Outcome)
      modifies this
      ensures (View(), outcome) == MaterializeStep(old(View()), key)
    {
      if doc.plan.None? {
        return Conflict;
      }
      if Replays(doc, key) {
        return Accepted(doc.receipts[key]);
      }
      var plan := doc.plan.value.(id := ResolvedId(doc.plan.value));
      var repositories := StringsOf(plan.repositories);
      if |repositories| == 0 {
        doc := doc.(plan := Some(plan), materialization := Failed);
        return Conflict;
      }
      var valid := ValidateRepositories(scope, repositories);
      if !valid {
        return Conflict;
      }
      var selection := SelectTierNames(doc.tiers);
      if selection.Malformed? {
        return Conflict;
      }
      if selection.Nothing? {
        return NoRepositories;
      }
      var approved := ToSet(selection.names);
      if doc.approval != Some("approved") || |approved| != |repositories| {
        return Conflict;
      }
      for i := 0 to |repositories|
        invariant View() == old(View())
        invariant forall j :: 0 <= j < i ==> repositories[j] in approved
      {
        if repositories[i] !in approved {
          return Conflict;
        }
      }
      var planned := PlanTasks(plan);
      for i := 0 to |planned|
        invariant View() == old(View())
        invariant forall j :: 0 <= j < i ==> planned[j].Task? && planned[j].repository in approved
      {
        if planned[i].NotATask? || planned[i].repository !in approved {
          return Conflict;
        }
      }
      InsertTasks(plan.id, planned, approved);
      var receipt := ReceiptOf(plan);
      doc := doc.(plan := Some(plan), materialization := Done(receipt), receipts := doc.receipts[key := receipt]);
      return Accepted(receipt);
    }

    /** INSERT … ON CONFLICT (idempotency_key): an existing row keeps its title. */
    method InsertTasks(id: PlanId, planned: seq<Task>, approved: set<string>)
      requires AllTasks(planned)
      modifies this`rows
      ensures rows == Inserted(old(View()), id, planned, approved, |planned|)
    {
      ghost var before := View();
      for index := 0 to |planned|
        invariant rows == Inserted(before, id, planned, approved, index)
      {
        var key := KeyAt(id, planned, index);
        if key !in rows {
          rows := rows[key := Row(planned[index].title, planned[index].work, scope, approved)];
        }
      }
    }
  }

  /** Every action of a run on the object; what other parts of the program write are the plain assignments. */
  method Perform(d: Discovery, a: Action)
    modifies d
    ensures d.View() == Apply(old(d.View()), a)
  {
    match a {
      case Candidates(items) => d.doc := d.doc.(candidates := Some(items));
      case Classify(key, version) => var _ := d.Classification(key, version);
      case Approve(key, decision, adjustments, evidence) => var _ := d.Approval(key, decision, adjustments, evidence);
      case MakePlan(key, planId) => var _ := d.Plan(key, planId);
      case AgentPlan(repositories, tasks) => d.ApplyPlan(repositories, tasks);
      case Materialize(key) => var _ := d.Materialize(key);
      case ChangeScope(scope) => d.scope := scope;
      case ChangeAudit(open) => d.auditOpen := open;
    }
  }

  /** Whatever happens to the object, its task rows name confirmed and approved repositories. */
  method Serve(d: Discovery, a: Action)
    requires ScopeSafety.RowsAreConfirmed(d.View())
    modifies d
    ensures d.View() == Apply(old(d.View()), a) && ScopeSafety.RowsAreConfirmed(d.View())
  {
    ScopeSafety.StepKeeps(d.View(), a);
    Perform(d, a);
  }
}
