/** The answers of the scope chain in terms of the document: how a candidate is judged, what each list entry says, which
    repositories tiers and tasks name, and what every request leaves behind. */
module ScopeAnswers {
  import opened Text
  import opened ScopeChain
  import ScopeSafety

  // ---- judging ----

  /** The agent's label counts; without one a graph exclusion, then a graph supplement, then the score: required from
      0.7 on, maybe from 0.4 on. */
  lemma JudgedMeans(item: Item)
    requires item.Item?
    ensures var silent := item.says.None?; var scored := silent && !item.excludedByGraph && !item.fromGraph;
      && (Judged(item) == Required <==> item.says == Some(Required) || (scored && item.score >= 0.7))
      && (Judged(item) == Maybe <==>
            item.says == Some(Maybe) || (silent && !item.excludedByGraph && item.fromGraph) || (scored && 0.4 <= item.score < 0.7))
      && (Judged(item) == Excluded <==>
            item.says == Some(Excluded) || (silent && item.excludedByGraph) || (scored && item.score < 0.4))
  {
  }

  /** The entry says what the candidate brought, under the status of its list. */
  predicate Says(e: Entry, item: Item, status: Status) {
    item.Item? && e == Entry(item.repository, status, item.score, item.fromGraph, item.conflict)
  }

  predicate From(items: seq<Item>, e: Entry, status: Status) {
    exists i :: 0 <= i < |items| && Says(e, items[i], status)
  }

  predicate AllFrom(items: seq<Item>, entries: seq<Entry>, status: Status) {
    forall e | e in entries :: From(items, e, status)
  }

  lemma {:induction false} FromMore(items: seq<Item>, entries: seq<Entry>, status: Status)
    requires items != [] && AllFrom(items[..|items| - 1], entries, status)
    ensures AllFrom(items, entries, status)
    ensures items[|items| - 1].Item? ==> AllFrom(items, entries + [EntryOf(items[|items| - 1], status)], status)
  {
    var n := |items| - 1;
    forall e | e in entries
      ensures From(items, e, status)
    {
      assert From(items[..n], e, status);
      var i :| 0 <= i < n && Says(e, items[..n][i], status);
      assert Says(e, items[i], status);
    }
    if items[n].Item? {
      assert Says(EntryOf(items[n], status), items[n], status);
    }
  }

  /** Every entry of the three lists is a candidate with its own score and marks. */
  lemma {:induction false} EntriesAreCandidates(items: seq<Item>, scope: set<string>)
    ensures var b := Classified(items, scope);
      AllFrom(items, b.required, Required) && AllFrom(items, b.maybe, Maybe) && AllFrom(items, b.excluded, Excluded)
    decreases |items|
  {
    if items != [] {
      var b := Classified(items[..|items| - 1], scope);
      EntriesAreCandidates(items[..|items| - 1], scope);
      FromMore(items, b.required, Required);
      FromMore(items, b.maybe, Maybe);
      FromMore(items, b.excluded, Excluded);
      hide AllFrom;
    }
  }

  /** A classification is stored exactly when there are candidates, no audit is open and the confirmed ones are named
      once; it replaces the tiers, and the hints only when it has some. Otherwise nothing changes. */
  lemma {:induction false} ClassificationStores(w: World, key: string, version: nat)
    requires !Replays(w.doc, key)
    ensures var (t, outcome) := ClassificationStep(w, key, version);
      && (outcome.Accepted? <==>
            && w.doc.candidates.Some? && !w.auditOpen
            && Distinct(ScopeSafety.InScope(w.doc.candidates.value, w.scope)))
      && if outcome.Accepted? then
           var b := Classified(w.doc.candidates.value, w.scope);
           && t.doc.classification == Some(b) && t.doc.evidence == Some(version) && t.doc.tiers == TiersOf(b)
           && t.gap == (if b.gap != [] then b.gap else w.gap) && t.rows == w.rows && t.scope == w.scope
           && t.doc.approval == w.doc.approval && t.doc.plan == w.doc.plan && t.doc.candidates == w.doc.candidates
           && t.doc.materialization == w.doc.materialization && !t.auditOpen
         else t == w && outcome == Conflict
  {
    if w.doc.candidates.Some? && !w.auditOpen {
      ScopeSafety.ClassificationSucceeds(w, key, version);
    }
    hide Classified, TiersOf, ValidRepositories, Names, Distinct, ScopeSafety.InScope;
  }

  // ---- tiers ----

  predicate TakesIn(t: Tier, repository: string) {
    t.Tier? && t.repository == repository && (t.tier == "required" || t.tier == "maybe")
  }

  predicate TakenIn(tiers: seq<Tier>, repository: string) {
    exists i :: 0 <= i < |tiers| && TakesIn(tiers[i], repository)
  }

  lemma {:induction false} TakenInStep(tiers: seq<Tier>, x: string)
    requires tiers != []
    ensures TakenIn(tiers, x) <==> TakenIn(tiers[..|tiers| - 1], x) || TakesIn(tiers[|tiers| - 1], x)
  {
    var n := |tiers| - 1;
    assert forall i :: 0 <= i < n ==> tiers[..n][i] == tiers[i];
  }

  /** The repositories taken in are those with a tier that says required or maybe; the other reading leaves out the empty
      name. */
  lemma {:induction false} SelectedAre(tiers: seq<Tier>, x: string)
    ensures x in SelectedNames(tiers) <==> TakenIn(tiers, x)
    ensures x in Included(tiers) <==> x != "" && TakenIn(tiers, x)
    decreases |tiers|
  {
    if tiers != [] {
      SelectedAre(tiers[..|tiers| - 1], x);
      TakenInStep(tiers, x);
      hide TakenIn;
    }
  }

  /** A plan is made exactly of an approved classification whose tiers all say one of the three words and take in at least
      one repository, each one confirmed and only once; it names them in order and has no tasks. */
  lemma {:induction false} PlanAnswers(w: World, key: string, planId: nat)
    requires !Replays(w.doc, key)
    ensures var (t, outcome) := PlanStep(w, key, planId); var names := SelectedNames(w.doc.tiers);
      && (outcome.Accepted? <==>
            && w.doc.classification.Some? && w.doc.approval == Some("approved")
            && (forall i :: 0 <= i < |w.doc.tiers| ==>
                  w.doc.tiers[i].Tier? && w.doc.tiers[i].tier in {"required", "maybe", "excluded"})
            && names != [] && Distinct(names) && forall x :: x in names ==> x in w.scope)
      && (if outcome.Accepted? then
            && t.doc.plan.Some? && t.doc.plan.value.id == Random(planId) && t.doc.plan.value.tasks == []
            && Strings(t.doc.plan.value.repositories) == names
            && t.rows == w.rows && t.doc.tiers == w.doc.tiers && t.doc.approval == w.doc.approval && t.scope == w.scope
            && t.doc.classification == w.doc.classification && t.doc.materialization == w.doc.materialization
          else t == w)
  {
    var names := SelectedNames(w.doc.tiers);
    ScopeSafety.StringsOfGiven(names);
    assert ValidRepositories(w.scope, names) <==> Distinct(names) && forall x :: x in names ==> x in w.scope by {
      assert forall i :: 0 <= i < |names| ==> names[i] in names;
    }
    assert forall i :: 0 <= i < |w.doc.tiers| ==>
      (KnownTier(w.doc.tiers[i]) <==> w.doc.tiers[i].Tier? && w.doc.tiers[i].tier in {"required", "maybe", "excluded"});
    hide SelectedNames, Strings, Given, ValidRepositories, Distinct, KnownTier;
  }

  // ---- adjustments ----

  /** What an adjusted list says of a tier: one of another repository is as it was, one of this repository says the new
      tier and remembers the one it had, if it had one. */
  predicate Remembers(tiers: seq<Tier>, a: Adjustment, t: Tier) {
    t.Tier? &&
      if t.repository != a.repository then t in tiers
      else t.tier == a.tier && t.adjusted && Was(tiers, a.repository, t.original)
  }

  predicate Was(tiers: seq<Tier>, repository: string, tier: Option<string>) {
    match tier
    case None => forall i :: 0 <= i < |tiers| ==> !(tiers[i].Tier? && tiers[i].repository == repository)
    case Some(text) => exists i :: 0 <= i < |tiers| && tiers[i].Tier? && tiers[i].repository == repository && tiers[i].tier == text
  }

  lemma {:induction false} RetieredRemembers(tiers: seq<Tier>, a: Adjustment, n: nat)
    requires n <= |tiers|
    ensures forall t | t in RetieredAll(tiers[..n], a) :: Remembers(tiers, a, t)
    decreases n
  {
    if n > 0 {
      RetieredRemembers(tiers, a, n - 1);
      assert tiers[..n][..n - 1] == tiers[..n - 1] && tiers[..n][n - 1] == tiers[n - 1];
      if tiers[n - 1].Tier? {
        var t := Retiered(tiers[n - 1], a);
        assert tiers[n - 1] in tiers;
        assert Remembers(tiers, a, t);
        assert RetieredAll(tiers[..n], a) == RetieredAll(tiers[..n - 1], a) + [t];
      } else {
        assert RetieredAll(tiers[..n], a) == RetieredAll(tiers[..n - 1], a);
      }
    }
  }

  lemma {:induction false} AdjustmentRemembers(tiers: seq<Tier>, a: Adjustment)
    ensures forall t | t in Applied(tiers, a) :: Remembers(tiers, a, t)
  {
    RetieredRemembers(tiers, a, |tiers|);
    assert tiers[..|tiers|] == tiers;
    if !Mentions(tiers, a.repository) {
      assert Remembers(tiers, a, Tier(a.repository, a.tier, true, None));
    }
    hide RetieredAll, Remembers;
  }

  // ---- the agent's plan ----

  predicate TaskFor(tasks: seq<Task>, x: string) {
    exists i :: 0 <= i < |tasks| && tasks[i].Task? && tasks[i].repository == x
  }

  /** The repositories of a task list are the non-empty names of its tasks, each once. */
  lemma {:induction false} TaskRepositoriesAre(tasks: seq<Task>, x: string)
    ensures Distinct(TaskRepositories(tasks))
    ensures x in TaskRepositories(tasks) <==> x != "" && TaskFor(tasks, x)
    decreases |tasks|
  {
    if tasks != [] {
      var n := |tasks| - 1;
      var before, last := TaskRepositories(tasks[..n]), tasks[n];
      TaskRepositoriesAre(tasks[..n], x);
      assert TaskFor(tasks, x) <==> TaskFor(tasks[..n], x) || (last.Task? && last.repository == x) by {
        assert forall i :: 0 <= i < n ==> tasks[..n][i] == tasks[i];
      }
      if last.Task? {
        ScopeSafety.DistinctAppend(before, last.repository);
      }
    }
  }

  /** They come in the order of their first tasks. */
  lemma {:induction false} TaskRepositoriesInOrder(tasks: seq<Task>, more: seq<Task>)
    ensures TaskRepositories(tasks) <= TaskRepositories(tasks + more)
    decreases |more|
  {
    if more == [] {
      assert tasks + more == tasks;
    } else {
      var n := |more| - 1;
      assert (tasks + more)[..|tasks + more| - 1] == tasks + more[..n];
      TaskRepositoriesInOrder(tasks, more[..n]);
    }
  }

  /** An agent's plan is stored with its tasks and its repositories, or those of its tasks when it lists none, and the rest
      stays. */
  lemma {:induction false} AgentPlanIsStored(w: World, repositories: seq<Option<string>>, tasks: seq<Task>)
    ensures var t := PlanArtifactStep(w, repositories, tasks);
      && t == w.(doc := w.doc.(plan := t.doc.plan)) && t.doc.plan.Some?
      && t.doc.plan.value.id == Derived("v1") && t.doc.plan.value.version == Some("v1") && t.doc.plan.value.tasks == tasks
      && (repositories != [] ==> t.doc.plan.value.repositories == repositories)
      && (repositories == [] ==> Strings(t.doc.plan.value.repositories) == TaskRepositories(tasks))
  {
    ScopeSafety.StringsOfGiven(TaskRepositories(tasks));
  }

  // ---- refusals ----

  /** A materialization that is not accepted writes nothing; only one whose plan names no repository at all is marked as
      failed, and keeps the id its rows would have had. */
  lemma {:induction false} MaterializeRefused(w: World, key: string)
    requires !Replays(w.doc, key) && !MaterializeStep(w, key).1.Accepted?
    ensures var t := MaterializeStep(w, key).0;
      if w.doc.plan.Some? && Strings(w.doc.plan.value.repositories) == [] then
        t == w.(doc := w.doc.(plan := Some(w.doc.plan.value.(id := t.doc.plan.value.id)), materialization := Failed))
        && t.doc.plan.Some? && (!w.doc.plan.value.id.Foreign? ==> t.doc.plan == w.doc.plan)
      else t == w
  {
    hide Planned, Selected, ValidRepositories, Strings, TasksWithin;
  }
}
