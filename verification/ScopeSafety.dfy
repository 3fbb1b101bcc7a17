/** Every task row names a repository a human confirmed, whatever the agents write, and what the human
    confirmed decides the tiers. */
module ScopeSafety {
  import opened Text
  import opened ScopeChain

  // ---- counting ----

  lemma {:induction false} SetOfDistinct(names: seq<string>)
    requires Distinct(names)
    ensures |ToSet(names)| == |names|
    decreases |names|
  {
    if names != [] {
      var n := |names| - 1;
      SetOfDistinct(names[..n]);
      assert names[n] !in ToSet(names[..n]);
      assert ToSet(names) == ToSet(names[..n]) + {names[n]};
    }
  }

  lemma {:induction false} SubsetOfSameSize(a: set<string>, b: set<string>)
    requires a <= b && |a| == |b|
    ensures a == b
  {
    var rest := b - a;
    assert b == a + rest;
    assert |b| == |a| + |rest|;
  }

  /** What a materialization that is not a replay needs, said as sets. */
  ghost predicate Ready(w: World) {
    w.doc.plan.Some? && w.doc.approval == Some("approved") && Selected(w.doc.tiers).Chosen?
    && var repositories := Strings(w.doc.plan.value.repositories);
       var approved := ToSet(Selected(w.doc.tiers).names);
       repositories != [] && Distinct(repositories) && ToSet(repositories) <= w.scope
       && ToSet(repositories) == approved && TasksWithin(Planned(w.doc.plan.value), approved)
  }

  /** Length and membership checks together: the plan's repositories are the approved tiers. */
  lemma {:induction false} MaterializeNeeds(w: World, key: string)
    requires !Replays(w.doc, key)
    ensures MaterializeStep(w, key).1.Accepted? <==> Ready(w)
  {
    if w.doc.plan.Some? && Selected(w.doc.tiers).Chosen? {
      var plan := w.doc.plan.value.(id := ResolvedId(w.doc.plan.value));
      var repositories := Strings(plan.repositories);
      var approved := ToSet(Selected(w.doc.tiers).names);
      assert Planned(plan) == Planned(w.doc.plan.value);
      assert (forall i :: 0 <= i < |repositories| ==> repositories[i] in w.scope) <==> ToSet(repositories) <= w.scope;
      assert (forall i :: 0 <= i < |repositories| ==> repositories[i] in approved) <==> ToSet(repositories) <= approved;
      if Distinct(repositories) {
        SetOfDistinct(repositories);
        if ToSet(repositories) <= approved && |approved| == |repositories| {
          SubsetOfSameSize(ToSet(repositories), approved);
        }
      }
    }
  }

  // ---- rows ----

  predicate RowIsConfirmed(w: World, k: TaskKey) {
    k in w.rows ==> k.repository in w.rows[k].scope && k.repository in w.rows[k].approved
  }

  ghost predicate RowsAreConfirmed(w: World) {
    forall k {:trigger RowIsConfirmed(w, k)} :: RowIsConfirmed(w, k)
  }

  lemma {:induction false} InsertedRow(w: World, id: PlanId, planned: seq<Task>, approved: set<string>, n: nat, k: TaskKey)
    requires AllTasks(planned) && n <= |planned|
    ensures var rows := Inserted(w, id, planned, approved, n);
      if k in w.rows then k in rows && rows[k] == w.rows[k]
      else k in rows <==> k.plan == id && k.index < n && k.repository == planned[k.index].repository
    ensures var rows := Inserted(w, id, planned, approved, n);
      k in rows && k !in w.rows ==> rows[k] == Row(planned[k.index].title, planned[k.index].work, w.scope, approved)
    decreases n
  {
    if n > 0 {
      InsertedRow(w, id, planned, approved, n - 1, k);
    }
  }

  /** Only materialization writes rows, and only in the confirmed scope and the approved tiers. */
  lemma {:induction false} NewRowIsConfirmed(w: World, a: Action, k: TaskKey)
    requires k in Apply(w, a).rows && k !in w.rows
    ensures a.Materialize? && Ready(w)
    ensures k.repository in w.scope && k.repository in ToSet(Selected(w.doc.tiers).names)
    ensures Apply(w, a).rows[k].scope == w.scope
    ensures Apply(w, a).rows[k].approved == ToSet(Selected(w.doc.tiers).names)
  {
    if a.Materialize? {
      if !Replays(w.doc, a.key) {
        MaterializeNeeds(w, a.key);
        var plan := w.doc.plan.value.(id := ResolvedId(w.doc.plan.value));
        assert Planned(plan) == Planned(w.doc.plan.value);
        var approved := ToSet(Selected(w.doc.tiers).names);
        InsertedRow(w, plan.id, Planned(plan), approved, |Planned(plan)|, k);
      }
    }
  }

  lemma {:induction false} InsertedKeeps(w: World, id: PlanId, planned: seq<Task>, approved: set<string>, n: nat, k: TaskKey)
    requires AllTasks(planned) && n <= |planned| && k in w.rows
    ensures var rows := Inserted(w, id, planned, approved, n); k in rows && rows[k] == w.rows[k]
    decreases n
  {
    if n > 0 {
      InsertedKeeps(w, id, planned, approved, n - 1, k);
    }
  }

  lemma {:induction false} MaterializeKeepsRow(w: World, key: string, k: TaskKey)
    requires k in w.rows
    ensures var rows := MaterializeStep(w, key).0.rows; k in rows && rows[k] == w.rows[k]
  {
    if !Replays(w.doc, key) && MaterializeStep(w, key).1.Accepted? {
      var plan := w.doc.plan.value.(id := ResolvedId(w.doc.plan.value));
      InsertedKeeps(w, plan.id, Planned(plan), ToSet(Selected(w.doc.tiers).names), |Planned(plan)|, k);
    }
  }

  lemma {:induction false} RowsStay(w: World, a: Action, k: TaskKey)
    requires k in w.rows
    ensures k in Apply(w, a).rows && Apply(w, a).rows[k] == w.rows[k]
  {
    hide MaterializeStep, Classified, ValidRepositories, AppliedAll, Included, HasSelection, Selected, Allowed;
    if a.Materialize? {
      MaterializeKeepsRow(w, a.key, k);
    }
  }

  lemma {:induction false} StepKeeps(w: World, a: Action)
    requires RowsAreConfirmed(w)
    ensures RowsAreConfirmed(Apply(w, a))
  {
    forall k
      ensures RowIsConfirmed(Apply(w, a), k)
    {
      assert RowIsConfirmed(w, k);
      if k in w.rows {
        RowsStay(w, a, k);
      } else if k in Apply(w, a).rows {
        NewRowIsConfirmed(w, a, k);
      }
    }
  }

  /** Over every run: each task row ever written names a repository that was in the confirmed scope and in
      the approved tiers when it was written. */
  lemma {:induction false} RunKeeps(w: World, actions: seq<Action>)
    requires RowsAreConfirmed(w)
    ensures RowsAreConfirmed(Run(w, actions))
    decreases |actions|
  {
    if actions != [] {
      StepKeeps(w, actions[0]);
      RunKeeps(Apply(w, actions[0]), actions[1..]);
    }
  }

  /** Rows are never rewritten or lost, whatever is classified, approved or planned later. */
  lemma {:induction false} RunKeepsRow(w: World, actions: seq<Action>, k: TaskKey)
    requires k in w.rows
    ensures k in Run(w, actions).rows && Run(w, actions).rows[k] == w.rows[k]
    decreases |actions|
  {
    if actions != [] {
      RowsStay(w, actions[0], k);
      RunKeepsRow(Apply(w, actions[0]), actions[1..], k);
    }
  }

  /** Materializing the same plan again writes nothing new. */
  lemma {:induction false} MaterializeAgain(w: World, first: string, second: string)
    requires !Replays(w.doc, first) && MaterializeStep(w, first).1.Accepted?
    ensures MaterializeStep(MaterializeStep(w, first).0, second).0.rows == MaterializeStep(w, first).0.rows
    ensures MaterializeStep(MaterializeStep(w, first).0, second).1.Accepted?
  {
    var w' := MaterializeStep(w, first).0;
    if !Replays(w'.doc, second) {
      MaterializeNeeds(w, first);
      MaterializeNeeds(w', second);
      var plan := w'.doc.plan.value;
      assert Planned(plan) == Planned(w.doc.plan.value);
      AlreadyInserted(w, w', plan.id, Planned(plan), ToSet(Selected(w.doc.tiers).names), |Planned(plan)|);
    }
  }

  lemma {:induction false} AlreadyInserted(w: World, w': World, id: PlanId, planned: seq<Task>, approved: set<string>, n: nat)
    requires AllTasks(planned) && n <= |planned|
    requires w'.rows == Inserted(w, id, planned, approved, |planned|)
    ensures Inserted(w', id, planned, approved, n) == w'.rows
    decreases n
  {
    if n > 0 {
      AlreadyInserted(w, w', id, planned, approved, n - 1);
      InsertedRow(w, id, planned, approved, |planned|, KeyAt(id, planned, n - 1));
    }
  }

  // ---- classification ----

  function CandidateNames(items: seq<Item>): set<string> {
    set i | 0 <= i < |items| && items[i].Item? :: items[i].repository
  }

  /** The candidates inside the scope, in order, repetitions included. */
  function InScope(items: seq<Item>, scope: set<string>): seq<string> {
    if items == [] then []
    else
      var last := items[|items| - 1];
      InScope(items[..|items| - 1], scope) + if last.Item? && last.repository in scope then [last.repository] else []
  }

  datatype Place = ToRequired | ToMaybe | ToExcluded | ToGap

  function PlaceOf(item: Item, scope: set<string>): Place
    requires item.Item?
  {
    if item.repository in scope then if Judged(item).Required? then ToRequired else ToMaybe
    else if Judged(item).Excluded? then ToExcluded
    else ToGap
  }

  function NamesAt(items: seq<Item>, scope: set<string>, place: Place): seq<string> {
    if items == [] then []
    else
      NamesAt(items[..|items| - 1], scope, place) + NameIf(items[|items| - 1], scope, place)
  }

  function NameIf(item: Item, scope: set<string>, place: Place): seq<string> {
    if item.Item? && PlaceOf(item, scope) == place then [item.repository] else []
  }

  lemma {:induction false} NamesOfAppend(entries: seq<Entry>, e: Entry)
    ensures Names(entries + [e]) == Names(entries) + [e.repository]
  {
    assert (entries + [e])[..|entries|] == entries;
  }

  function BucketAt(b: Buckets, place: Place): seq<string> {
    match place
    case ToRequired => Names(b.required)
    case ToMaybe => Names(b.maybe)
    case ToExcluded => Names(b.excluded)
    case ToGap => b.gap
  }

  lemma {:induction false} PlacedNames(b: Buckets, item: Item, scope: set<string>, place: Place)
    ensures BucketAt(Placed(b, item, scope), place) == BucketAt(b, place) + NameIf(item, scope, place)
  {
    hide Names;
    if item.Item? {
      match PlaceOf(item, scope) {
        case ToRequired => NamesOfAppend(b.required, EntryOf(item, Required));
        case ToMaybe => NamesOfAppend(b.maybe, EntryOf(item, Maybe));
        case ToExcluded => NamesOfAppend(b.excluded, EntryOf(item, Excluded));
        case ToGap =>
      }
    }
  }

  lemma {:induction false} BucketNames(items: seq<Item>, scope: set<string>, place: Place)
    ensures BucketAt(Classified(items, scope), place) == NamesAt(items, scope, place)
    decreases |items|
  {
    if items != [] {
      BucketNames(items[..|items| - 1], scope, place);
      PlacedNames(Classified(items[..|items| - 1], scope), items[|items| - 1], scope, place);
    }
  }

  predicate IsAt(items: seq<Item>, scope: set<string>, place: Place, x: string, i: int) {
    0 <= i < |items| && items[i].Item? && items[i].repository == x && PlaceOf(items[i], scope) == place
  }

  lemma {:induction false} AtMeans(items: seq<Item>, scope: set<string>, place: Place, x: string)
    ensures x in NamesAt(items, scope, place) <==> exists i :: IsAt(items, scope, place, x, i)
    decreases |items|
  {
    if items == [] {
      assert forall i :: !IsAt(items, scope, place, x, i);
    } else {
      var n := |items| - 1;
      AtMeans(items[..n], scope, place, x);
      assert forall i :: IsAt(items[..n], scope, place, x, i) ==> IsAt(items, scope, place, x, i);
      assert forall i :: IsAt(items, scope, place, x, i) && i != n ==> IsAt(items[..n], scope, place, x, i);
      assert IsAt(items, scope, place, x, n) <==>
        items[n].Item? && items[n].repository == x && PlaceOf(items[n], scope) == place;
    }
  }

  /** Where each candidate goes: what the agent and the graph say only chooses between required and maybe
      inside the confirmed scope, and between hint and excluded outside it. */
  lemma {:induction false} BucketsByScope(items: seq<Item>, scope: set<string>, place: Place, x: string)
    ensures x in BucketAt(Classified(items, scope), place) <==> exists i :: IsAt(items, scope, place, x, i)
  {
    BucketNames(items, scope, place);
    AtMeans(items, scope, place, x);
  }

  predicate DistinctItems(items: seq<Item>) {
    forall i, j :: 0 <= i < j < |items| && items[i].Item? && items[j].Item? ==>
      items[i].repository != items[j].repository
  }

  /** Distinct candidates are each in exactly one bucket. */
  lemma {:induction false} ExactlyOneBucket(items: seq<Item>, scope: set<string>, i: nat, place: Place)
    requires DistinctItems(items) && i < |items| && items[i].Item?
    ensures items[i].repository in BucketAt(Classified(items, scope), place) <==> place == PlaceOf(items[i], scope)
  {
    BucketsByScope(items, scope, place, items[i].repository);
    assert IsAt(items, scope, PlaceOf(items[i], scope), items[i].repository, i);
    assert forall j :: IsAt(items, scope, place, items[i].repository, j) ==> j == i;
  }

  /** The two included buckets together are the candidates inside the scope, repetition for repetition. */
  lemma {:induction false} IncludedAreInScope(items: seq<Item>, scope: set<string>)
    ensures multiset(NamesAt(items, scope, ToRequired)) + multiset(NamesAt(items, scope, ToMaybe))
      == multiset(InScope(items, scope))
    decreases |items|
  {
    if items != [] {
      IncludedAreInScope(items[..|items| - 1], scope);
      NamesAtStep(items, scope, ToRequired);
      NamesAtStep(items, scope, ToMaybe);
      InScopeStep(items, scope);
      hide NamesAt, InScope;
    }
  }

  lemma {:induction false} NamesAtStep(items: seq<Item>, scope: set<string>, place: Place)
    requires items != []
    ensures var n := |items| - 1;
      multiset(NamesAt(items, scope, place)) == multiset(NamesAt(items[..n], scope, place)) + multiset(NameIf(items[n], scope, place))
  {
  }

  lemma {:induction false} InScopeStep(items: seq<Item>, scope: set<string>)
    requires items != []
    ensures var n := |items| - 1; var last := items[n];
      multiset(InScope(items, scope)) == multiset(InScope(items[..n], scope))
        + if last.Item? && last.repository in scope then multiset{last.repository} else multiset{}
  {
  }

  lemma {:induction false} DistinctByCount(names: seq<string>)
    ensures Distinct(names) <==> forall x :: multiset(names)[x] <= 1
    decreases |names|
  {
    if names != [] {
      var n := |names| - 1;
      DistinctByCount(names[..n]);
      assert names == names[..n] + [names[n]];
      assert multiset(names) == multiset(names[..n]) + multiset{names[n]};
      if Distinct(names) {
        assert Distinct(names[..n]);
        assert names[n] !in names[..n];
      } else if Distinct(names[..n]) {
        var i, j :| 0 <= i < j < |names| && names[i] == names[j];
        assert j == n && names[..n][i] == names[n];
        assert names[n] in multiset(names[..n]);
        assert multiset(names)[names[n]] > 1;
      } else {
        var x :| multiset(names[..n])[x] > 1;
        assert multiset(names)[x] > 1;
      }
    }
  }

  lemma {:induction false} InScopeMeans(items: seq<Item>, scope: set<string>, x: string)
    ensures x in InScope(items, scope) <==> x in CandidateNames(items) && x in scope
    decreases |items|
  {
    if items != [] {
      var n := |items| - 1;
      InScopeMeans(items[..n], scope, x);
      assert x in CandidateNames(items[..n]) ==> x in CandidateNames(items) by {
        if i :| 0 <= i < n && items[i].Item? && items[i].repository == x {
          assert items[i].repository in CandidateNames(items);
        }
      }
      assert items[n].Item? ==> items[n].repository in CandidateNames(items);
      if x in CandidateNames(items) && (items[n].NotAnItem? || x != items[n].repository) {
        var i :| 0 <= i < |items| && items[i].Item? && items[i].repository == x;
        assert items[..n][i].repository in CandidateNames(items[..n]);
      }
    }
  }

  function IncludedNames(b: Buckets): seq<string> {
    Names(b.required) + Names(b.maybe)
  }

  lemma {:induction false} SameNames(items: seq<Item>, scope: set<string>)
    ensures var names := IncludedNames(Classified(items, scope));
      multiset(names) == multiset(InScope(items, scope))
  {
    BucketNames(items, scope, ToRequired);
    BucketNames(items, scope, ToMaybe);
    IncludedAreInScope(items, scope);
  }

  lemma {:induction false} IncludedMeans(items: seq<Item>, scope: set<string>, x: string)
    ensures x in IncludedNames(Classified(items, scope)) <==> x in CandidateNames(items) && x in scope
  {
    SameNames(items, scope);
    InScopeMeans(items, scope, x);
    assert x in IncludedNames(Classified(items, scope)) <==> x in multiset(IncludedNames(Classified(items, scope)));
    assert x in InScope(items, scope) <==> x in multiset(InScope(items, scope));
  }

  /** The included names pass the scope check exactly when no two candidates name the same confirmed repository. */
  lemma {:induction false} IncludedAreValid(items: seq<Item>, scope: set<string>)
    ensures ValidRepositories(scope, IncludedNames(Classified(items, scope))) <==> Distinct(InScope(items, scope))
  {
    var names := IncludedNames(Classified(items, scope));
    SameNames(items, scope);
    DistinctByCount(names);
    DistinctByCount(InScope(items, scope));
    forall i | 0 <= i < |names|
      ensures names[i] in scope
    {
      IncludedMeans(items, scope, names[i]);
    }
  }

  /** With no audit open, classification succeeds exactly when no confirmed repository is named twice. */
  lemma {:induction false} ClassificationSucceeds(w: World, key: string, version: nat)
    requires w.doc.candidates.Some? && !Replays(w.doc, key) && !w.auditOpen
    ensures ClassificationStep(w, key, version).1.Accepted? <==> Distinct(InScope(w.doc.candidates.value, w.scope))
  {
    IncludedAreValid(w.doc.candidates.value, w.scope);
  }

  // ---- tiers ----

  lemma {:induction false} IncludedAppend(a: seq<Tier>, b: seq<Tier>)
    ensures Included(a + b) == Included(a) + Included(b)
    ensures SelectedNames(a + b) == SelectedNames(a) + SelectedNames(b)
    decreases |b|
  {
    if b == [] {
      assert a + b == a;
    } else {
      assert (a + b)[..|a + b| - 1] == a + b[..|b| - 1];
      IncludedAppend(a, b[..|b| - 1]);
    }
  }

  lemma {:induction false} TiersForMeans(entries: seq<Entry>, tier: string)
    requires tier in {"required", "maybe", "excluded"}
    ensures SelectedNames(TiersFor(entries, tier)) == if tier == "excluded" then [] else Names(entries)
    decreases |entries|
  {
    if entries != [] {
      TiersForMeans(entries[..|entries| - 1], tier);
    }
  }

  lemma {:induction false} TiersForKnown(entries: seq<Entry>, tier: string)
    requires tier in {"required", "maybe", "excluded"}
    ensures forall i :: 0 <= i < |TiersFor(entries, tier)| ==> KnownTier(TiersFor(entries, tier)[i])
    decreases |entries|
  {
    if entries != [] {
      TiersForKnown(entries[..|entries| - 1], tier);
    }
  }

  /** The tiers of a fresh classification select its two included buckets, in that order. */
  lemma {:induction false} TiersOfMeans(b: Buckets)
    ensures SelectedNames(TiersOf(b)) == IncludedNames(b)
  {
    var r, m, e := TiersFor(b.required, "required"), TiersFor(b.maybe, "maybe"), TiersFor(b.excluded, "excluded");
    TiersForMeans(b.required, "required");
    TiersForMeans(b.maybe, "maybe");
    TiersForMeans(b.excluded, "excluded");
    IncludedAppend(r + m, e);
    IncludedAppend(r, m);
  }

  lemma {:induction false} TiersOfKnown(b: Buckets, i: nat)
    requires i < |TiersOf(b)|
    ensures KnownTier(TiersOf(b)[i])
  {
    TiersForKnown(b.required, "required");
    TiersForKnown(b.maybe, "maybe");
    TiersForKnown(b.excluded, "excluded");
  }

  lemma {:induction false} DistinctAppend(names: seq<string>, x: string)
    ensures Distinct(names + [x]) <==> Distinct(names) && x !in names
  {
    var more := names + [x];
    assert forall i :: 0 <= i < |names| ==> more[i] == names[i];
    assert more[|names|] == x;
  }

  /** includedTierNames and selectedTierNames differ only in empty names. */
  lemma {:induction false} IncludedWithin(tiers: seq<Tier>)
    ensures Distinct(SelectedNames(tiers)) ==> Distinct(Included(tiers))
    ensures forall x :: x in Included(tiers) ==> x in SelectedNames(tiers)
    decreases |tiers|
  {
    if tiers != [] {
      var last := tiers[|tiers| - 1];
      var selected, included := SelectedNames(tiers[..|tiers| - 1]), Included(tiers[..|tiers| - 1]);
      IncludedWithin(tiers[..|tiers| - 1]);
      if Includes(last) {
        assert SelectedNames(tiers) == selected + [last.repository];
        assert Included(tiers) == included + [last.repository] || Included(tiers) == included + [] == included;
        DistinctAppend(selected, last.repository);
        DistinctAppend(included, last.repository);
      } else {
        assert SelectedNames(tiers) == selected + [] == selected && Included(tiers) == included + [] == included;
      }
    }
  }

  lemma {:induction false} SelectionStep(tiers: seq<Tier>)
    requires tiers != []
    ensures HasSelection(tiers) <==> HasSelection(tiers[..|tiers| - 1]) || Includes(tiers[|tiers| - 1])
  {
    var n := |tiers| - 1;
    assert forall i :: 0 <= i < n ==> tiers[..n][i] == tiers[i];
  }

  lemma {:induction false} SelectionMeans(tiers: seq<Tier>)
    ensures HasSelection(tiers) <==> SelectedNames(tiers) != []
    decreases |tiers|
  {
    if tiers != [] {
      SelectionMeans(tiers[..|tiers| - 1]);
      SelectionStep(tiers);
    }
  }

  // ---- the human decides ----

  function AfterClassify(w: World, key: string, version: nat): World {
    ClassificationStep(w, key, version).0
  }

  lemma {:induction false} FreshTiersAreValid(b: Buckets, scope: set<string>)
    requires ValidRepositories(scope, IncludedNames(b))
    ensures ValidRepositories(scope, Included(TiersOf(b)))
  {
    var names, included := IncludedNames(b), Included(TiersOf(b));
    TiersOfMeans(b);
    IncludedWithin(TiersOf(b));
    forall i | 0 <= i < |included|
      ensures included[i] in scope
    {
      assert included[i] in included && included[i] in names;
    }
  }

  lemma {:induction false} SomeIncluded(items: seq<Item>, scope: set<string>)
    ensures IncludedNames(Classified(items, scope)) != [] <==> CandidateNames(items) * scope != {}
  {
    var names := IncludedNames(Classified(items, scope));
    if names != [] {
      IncludedMeans(items, scope, names[0]);
      assert names[0] in CandidateNames(items) * scope;
    } else if x :| x in CandidateNames(items) * scope {
      IncludedMeans(items, scope, x);
    }
  }

  lemma {:induction false} FreshTiers(items: seq<Item>, scope: set<string>)
    requires ValidRepositories(scope, IncludedNames(Classified(items, scope)))
    ensures ValidRepositories(scope, Included(TiersOf(Classified(items, scope))))
    ensures HasSelection(TiersOf(Classified(items, scope))) <==> CandidateNames(items) * scope != {}
  {
    var b := Classified(items, scope);
    FreshTiersAreValid(b, scope);
    TiersOfMeans(b);
    SelectionMeans(TiersOf(b));
    SomeIncluded(items, scope);
  }

  /** Two requests do not replay each other; an empty key never replays. */
  predicate KeysApart(a: string, b: string) {
    a == "" || a != b
  }

  lemma {:induction false} ClassifiedState(w: World, key: string, version: nat)
    requires w.doc.candidates.Some? && !Replays(w.doc, key) && ClassificationStep(w, key, version).1.Accepted?
    ensures var w' := AfterClassify(w, key, version); var b := Classified(w.doc.candidates.value, w.scope);
      w'.doc.tiers == TiersOf(b) && w'.doc.classification == Some(b) && w'.doc.evidence == Some(version)
      && w'.scope == w.scope && ValidRepositories(w.scope, IncludedNames(b))
    ensures forall k :: (KeysApart(k, key) && !Replays(w.doc, k) ==> !Replays(AfterClassify(w, key, version).doc, k))
  {
  }

  lemma {:induction false} ApprovalOf(w: World, key: string)
    requires w.doc.classification.Some? && w.doc.evidence.Some? && !Replays(w.doc, key)
    ensures ApprovalStep(w, key, "approved", [], w.doc.evidence.value).1.Accepted?
      <==> ValidRepositories(w.scope, Included(w.doc.tiers)) && HasSelection(w.doc.tiers)
  {
    assert AppliedAll(w.doc.tiers, []) == w.doc.tiers;
  }

  /** Approval of a fresh classification as it is: it succeeds exactly when some candidate is confirmed. */
  lemma {:induction false} UnadjustedApproval(w: World, key: string, version: nat, approvalKey: string)
    requires w.doc.candidates.Some? && !Replays(w.doc, key) && ClassificationStep(w, key, version).1.Accepted?
    requires KeysApart(approvalKey, key) && !Replays(w.doc, approvalKey)
    ensures ApprovalStep(AfterClassify(w, key, version), approvalKey, "approved", [], version).1.Accepted?
      <==> CandidateNames(w.doc.candidates.value) * w.scope != {}
  {
    ClassifiedState(w, key, version);
    FreshTiers(w.doc.candidates.value, w.scope);
    ApprovalOf(AfterClassify(w, key, version), approvalKey);
  }

  function AfterApproval(w: World, key: string, version: nat, approvalKey: string): World {
    ApprovalStep(AfterClassify(w, key, version), approvalKey, "approved", [], version).0
  }

  lemma {:induction false} ApprovedState(w: World, key: string, version: nat, approvalKey: string)
    requires w.doc.candidates.Some? && !Replays(w.doc, key) && ClassificationStep(w, key, version).1.Accepted?
    requires KeysApart(approvalKey, key) && !Replays(w.doc, approvalKey)
    requires CandidateNames(w.doc.candidates.value) * w.scope != {}
    ensures var w' := AfterApproval(w, key, version, approvalKey);
      w'.doc.classification.Some? && w'.doc.approval == Some("approved") && w'.scope == w.scope
      && w'.doc.tiers == TiersOf(Classified(w.doc.candidates.value, w.scope))
    ensures forall k :: (KeysApart(k, key) && KeysApart(k, approvalKey) && !Replays(w.doc, k)
      ==> !Replays(AfterApproval(w, key, version, approvalKey).doc, k))
  {
    UnadjustedApproval(w, key, version, approvalKey);
  }

  lemma {:induction false} PlanOf(w: World, key: string, id: nat, names: seq<string>)
    requires w.doc.classification.Some? && w.doc.approval == Some("approved") && !Replays(w.doc, key)
    requires Selected(w.doc.tiers) == Chosen(names) && ValidRepositories(w.scope, names)
    ensures PlanStep(w, key, id).1.Accepted? && PlanStep(w, key, id).0.doc.plan.Some?
    ensures Strings(PlanStep(w, key, id).0.doc.plan.value.repositories) == names
  {
    StringsOfGiven(names);
  }

  /** The unadjusted tiers of a classification select exactly the candidates inside the scope. */
  lemma {:induction false} FreshSelection(items: seq<Item>, scope: set<string>)
    requires ValidRepositories(scope, IncludedNames(Classified(items, scope))) && CandidateNames(items) * scope != {}
    ensures var names := IncludedNames(Classified(items, scope));
      Selected(TiersOf(Classified(items, scope))) == Chosen(names) && ToSet(names) == CandidateNames(items) * scope
  {
    var b := Classified(items, scope);
    var names := IncludedNames(b);
    TiersOfMeans(b);
    forall i | 0 <= i < |TiersOf(b)|
      ensures KnownTier(TiersOf(b)[i])
    {
      TiersOfKnown(b, i);
    }
    forall x
      ensures x in ToSet(names) <==> x in CandidateNames(items) * scope
    {
      IncludedMeans(items, scope, x);
    }
    assert ToSet(names) == CandidateNames(items) * scope;
    assert names == [] ==> ToSet(names) == {};
  }

  /** The plan made after it selects exactly the candidates inside the confirmed scope. */
  lemma {:induction false} PlanSelectsScope(w: World, key: string, version: nat, approvalKey: string, planKey: string, id: nat)
    requires w.doc.candidates.Some? && !Replays(w.doc, key) && ClassificationStep(w, key, version).1.Accepted?
    requires KeysApart(approvalKey, key) && KeysApart(planKey, key) && KeysApart(planKey, approvalKey)
    requires !Replays(w.doc, approvalKey) && !Replays(w.doc, planKey)
    requires CandidateNames(w.doc.candidates.value) * w.scope != {}
    ensures var (planned, outcome) := PlanStep(AfterApproval(w, key, version, approvalKey), planKey, id);
      outcome.Accepted? && planned.doc.plan.Some?
      && ToSet(Strings(planned.doc.plan.value.repositories)) == CandidateNames(w.doc.candidates.value) * w.scope
  {
    var items := w.doc.candidates.value;
    ClassifiedState(w, key, version);
    ApprovedState(w, key, version, approvalKey);
    FreshSelection(items, w.scope);
    PlanOf(AfterApproval(w, key, version, approvalKey), planKey, id, IncludedNames(Classified(items, w.scope)));
  }

  lemma {:induction false} StringsOfGiven(names: seq<string>)
    ensures Strings(Given(names)) == names
    decreases |names|
  {
    if names != [] {
      StringsOfGiven(names[..|names| - 1]);
      assert Given(names)[..|names| - 1] == Given(names[..|names| - 1]);
    }
  }

  // ---- adjustments ----

  predicate TierAt(tiers: seq<Tier>, repository: string, tier: string) {
    exists i :: 0 <= i < |tiers| && tiers[i].Tier? && tiers[i].repository == repository && tiers[i].tier == tier
  }

  lemma {:induction false} RetieredMeans(tiers: seq<Tier>, a: Adjustment, repository: string, tier: string)
    ensures TierAt(RetieredAll(tiers, a), repository, tier)
      <==> if repository == a.repository then Mentions(tiers, repository) && tier == a.tier
           else TierAt(tiers, repository, tier)
    decreases |tiers|
  {
    if tiers != [] {
      var n := |tiers| - 1;
      var before, moved := tiers[..n], RetieredAll(tiers[..n], a);
      assert tiers == before + [tiers[n]];
      RetieredMeans(before, a, repository, tier);
      TierAtAppend(before, tiers[n], repository, tier);
      MentionsAppend(before, tiers[n], repository);
      if tiers[n].Tier? {
        assert RetieredAll(tiers, a) == moved + [Retiered(tiers[n], a)];
        TierAtAppend(moved, Retiered(tiers[n], a), repository, tier);
      } else {
        assert RetieredAll(tiers, a) == moved;
      }
    }
  }

  lemma {:induction false} TierAtAppend(tiers: seq<Tier>, t: Tier, repository: string, tier: string)
    ensures TierAt(tiers + [t], repository, tier)
      <==> TierAt(tiers, repository, tier) || (t.Tier? && t.repository == repository && t.tier == tier)
  {
    var all := tiers + [t];
    assert forall i :: 0 <= i < |tiers| ==> all[i] == tiers[i];
    assert all[|tiers|] == t;
  }

  lemma {:induction false} MentionsAppend(tiers: seq<Tier>, t: Tier, repository: string)
    ensures Mentions(tiers + [t], repository) <==> Mentions(tiers, repository) || (t.Tier? && t.repository == repository)
  {
    var all := tiers + [t];
    assert forall i :: 0 <= i < |tiers| ==> all[i] == tiers[i];
    assert all[|tiers|] == t;
  }

  function LastFor(adjustments: seq<Adjustment>, repository: string): Option<string> {
    if adjustments == [] then None
    else if adjustments[|adjustments| - 1].repository == repository then Some(adjustments[|adjustments| - 1].tier)
    else LastFor(adjustments[..|adjustments| - 1], repository)
  }

  /** The last adjustment of a repository is its tier, whether or not it was classified; every other
      repository keeps the tier it had. */
  lemma {:induction false} LastAdjustmentDecides(tiers: seq<Tier>, adjustments: seq<Adjustment>, repository: string, tier: string)
    ensures TierAt(AppliedAll(tiers, adjustments), repository, tier)
      <==> match LastFor(adjustments, repository)
           case Some(last) => tier == last
           case None => TierAt(tiers, repository, tier)
    decreases |adjustments|
  {
    if adjustments != [] {
      var n := |adjustments| - 1;
      var before, a := AppliedAll(tiers, adjustments[..n]), adjustments[n];
      LastAdjustmentDecides(tiers, adjustments[..n], repository, tier);
      RetieredMeans(before, a, repository, tier);
      var moved := RetieredAll(before, a);
      TierAtAppend(moved, Tier(a.repository, a.tier, true, None), repository, tier);
      assert moved + [] == moved;
      assert AppliedAll(tiers, adjustments) == Applied(before, a);
      if repository == a.repository {
        assert TierAt(Applied(before, a), repository, tier) <==> tier == a.tier;
      } else {
        assert TierAt(Applied(before, a), repository, tier) <==> TierAt(before, repository, tier);
      }
    }
  }
}
