/** The repository dependency map, built twice from the same agent task list: Materialize stores
    dag[upstream] = dependents, the replan artifact stores dag[dependent] = upstreams. */
module RepoDag {
  import opened Text
  import opened ScopeChain
  import ScopeSafety

  datatype Edge = Edge(from: string, to: string)

  type Dag = map<string, seq<string>>

  function Node(dag: Dag, a: string): seq<string> {
    if a in dag then dag[a] else []
  }

  /** Titles to repositories; a later task with the same title overwrites. */
  function Titles(tasks: seq<Task>): map<string, string> {
    if tasks == [] then map[]
    else
      var before, last := Titles(tasks[..|tasks| - 1]), tasks[|tasks| - 1];
      if last.Task? then before[last.title := last.repository] else before
  }

  // ---- plan.go ----

  function PlanEdge(titles: map<string, string>, repository: string, dep: string): seq<Edge> {
    if !Blank(dep) && dep in titles && titles[dep] != repository then [Edge(titles[dep], repository)] else []
  }

  function PlanEdgesOf(titles: map<string, string>, repository: string, deps: seq<string>): seq<Edge> {
    if deps == [] then []
    else PlanEdgesOf(titles, repository, deps[..|deps| - 1]) + PlanEdge(titles, repository, deps[|deps| - 1])
  }

  function PlanEdges(titles: map<string, string>, tasks: seq<Task>): seq<Edge> {
    if tasks == [] then []
    else
      var last := tasks[|tasks| - 1];
      PlanEdges(titles, tasks[..|tasks| - 1])
      + if last.Task? then PlanEdgesOf(titles, last.repository, last.dependsOn) else []
  }

  datatype Links = Links(dag: Dag, seen: set<string>)

  /** The key under which an edge is remembered: both names in one string. */
  function KeyOf(e: Edge): string {
    e.from + ("->" + e.to)
  }

  function Linked(links: Links, e: Edge): Links {
    if KeyOf(e) in links.seen then links
    else Links(links.dag[e.from := Node(links.dag, e.from) + [e.to]], links.seen + {KeyOf(e)})
  }

  function LinkedAll(base: Dag, edges: seq<Edge>): Links {
    if edges == [] then Links(base, {})
    else Linked(LinkedAll(base, edges[..|edges| - 1]), edges[|edges| - 1])
  }

  function Empty(repositories: seq<string>): Dag {
    map r | r in repositories :: []
  }

  /** The map Materialize stores with the plan. */
  function PlanDag(repositories: seq<string>, planned: seq<Task>): Dag {
    LinkedAll(Empty(repositories), PlanEdges(Titles(planned), planned)).dag
  }

  // ---- replan.go ----

  function ReplanEdge(titles: map<string, string>, repository: string, dep: string): seq<Edge> {
    var title := TrimSpace(dep);
    if title in titles && titles[title] != repository && !Blank(titles[title]) then [Edge(titles[title], repository)]
    else []
  }

  function ReplanEdgesOf(titles: map<string, string>, repository: string, deps: seq<string>): seq<Edge> {
    if deps == [] then []
    else ReplanEdgesOf(titles, repository, deps[..|deps| - 1]) + ReplanEdge(titles, repository, deps[|deps| - 1])
  }

  function ReplanEdges(titles: map<string, string>, tasks: seq<Task>): seq<Edge> {
    if tasks == [] then []
    else
      var last := tasks[|tasks| - 1];
      ReplanEdges(titles, tasks[..|tasks| - 1])
      + if last.Task? then ReplanEdgesOf(titles, last.repository, last.dependsOn) else []
  }

  function Upstreamed(dag: Dag, e: Edge): Dag {
    if e.from in Node(dag, e.to) then dag else dag[e.to := Node(dag, e.to) + [e.from]]
  }

  function UpstreamedAll(dag: Dag, edges: seq<Edge>): Dag {
    if edges == [] then dag else Upstreamed(UpstreamedAll(dag, edges[..|edges| - 1]), edges[|edges| - 1])
  }

  function WithNode(dag: Dag, a: string): Dag {
    if a in dag then dag else dag[a := []]
  }

  function UpstreamDag(titles: map<string, string>, tasks: seq<Task>): Dag {
    if tasks == [] then map[]
    else
      var before, last := UpstreamDag(titles, tasks[..|tasks| - 1]), tasks[|tasks| - 1];
      if last.Task?
      then UpstreamedAll(WithNode(before, last.repository), ReplanEdgesOf(titles, last.repository, last.dependsOn))
      else before
  }

  predicate Nameless(t: Task) {
    t.Task? && (Blank(t.repository) || Blank(t.title))
  }

  /** The map of replanTasksFromArtifact; None when a task has no name or there is no task at all. */
  function ReplanDag(tasks: seq<Task>): Option<Dag> {
    if (exists i :: 0 <= i < |tasks| && Nameless(tasks[i])) || (forall i :: 0 <= i < |tasks| ==> tasks[i].NotATask?)
    then None
    else Some(UpstreamDag(Titles(tasks), tasks))
  }

  // ---- the loops ----

  method BuildTitles(tasks: seq<Task>) returns (titles: map<string, string>)
    ensures titles == Titles(tasks)
  {
    titles := map[];
    for i := 0 to |tasks|
      invariant titles == Titles(tasks[..i])
    {
      assert tasks[..i + 1][..i] == tasks[..i];
      if tasks[i].Task? {
        titles := titles[tasks[i].title := tasks[i].repository];
      }
    }
    assert tasks[..|tasks|] == tasks;
  }

  method BuildPlanDag(repositories: seq<string>, planned: seq<Task>) returns (dag: Dag)
    requires AllTasks(planned)
    ensures dag == PlanDag(repositories, planned)
  {
    var titles := BuildTitles(planned);
    dag := map[];
    for i := 0 to |repositories|
      invariant dag == Empty(repositories[..i])
    {
      assert repositories[..i + 1] == repositories[..i] + [repositories[i]];
      dag := dag[repositories[i] := []];
    }
    assert repositories[..|repositories|] == repositories;
    var seen: set<string> := {};
    ghost var base := dag;
    for i := 0 to |planned|
      invariant Links(dag, seen) == LinkedAll(base, PlanEdges(titles, planned[..i]))
    {
      assert planned[..i + 1][..i] == planned[..i];
      dag, seen := LinkTask(titles, planned[i], dag, seen, base, PlanEdges(titles, planned[..i]));
    }
    assert planned[..|planned|] == planned;
  }

  lemma {:induction false} PlanEdgesOfStep(titles: map<string, string>, repository: string, deps: seq<string>, j: nat)
    requires j < |deps|
    ensures PlanEdgesOf(titles, repository, deps[..j + 1])
      == PlanEdgesOf(titles, repository, deps[..j]) + PlanEdge(titles, repository, deps[j])
  {
    assert deps[..j + 1][..j] == deps[..j];
  }

  lemma {:induction false} LinkedAppend(base: Dag, edges: seq<Edge>, e: Edge)
    ensures LinkedAll(base, edges + [e]) == Linked(LinkedAll(base, edges), e)
  {
    assert (edges + [e])[..|edges|] == edges;
  }

  /** One more dependency: no edge, or one edge on top of the links so far. */
  lemma {:induction false} LinkStep(titles: map<string, string>, t: Task, base: Dag, before: seq<Edge>, j: nat)
    requires t.Task? && j < |t.dependsOn|
    ensures var links, one := LinkedAll(base, before + PlanEdgesOf(titles, t.repository, t.dependsOn[..j])),
        PlanEdge(titles, t.repository, t.dependsOn[j]);
      LinkedAll(base, before + PlanEdgesOf(titles, t.repository, t.dependsOn[..j + 1]))
      == if one == [] then links else Linked(links, one[0])
  {
    hide LinkedAll, PlanEdgesOf;
    var more := PlanEdgesOf(titles, t.repository, t.dependsOn[..j]);
    PlanEdgesOfStep(titles, t.repository, t.dependsOn, j);
    var one := PlanEdge(titles, t.repository, t.dependsOn[j]);
    if one == [] {
      assert more + one == more;
    } else {
      LinkedAppend(base, before + more, one[0]);
      assert before + (more + one) == (before + more) + [one[0]];
    }
  }

  /** The inner loop over one task's depends_on. */
  method LinkTask(titles: map<string, string>, t: Task, dag0: Dag, seen0: set<string>, ghost base: Dag, ghost before: seq<Edge>)
    returns (dag: Dag, seen: set<string>)
    requires t.Task? && Links(dag0, seen0) == LinkedAll(base, before)
    ensures Links(dag, seen) == LinkedAll(base, before + PlanEdgesOf(titles, t.repository, t.dependsOn))
  {
    dag, seen := dag0, seen0;
    assert before + PlanEdgesOf(titles, t.repository, []) == before;
    hide LinkedAll, PlanEdgesOf;
    for j := 0 to |t.dependsOn|
      invariant Links(dag, seen) == LinkedAll(base, before + PlanEdgesOf(titles, t.repository, t.dependsOn[..j]))
    {
      var dep := t.dependsOn[j];
      LinkStep(titles, t, base, before, j);
      if TrimSpace(dep) == "" || dep !in titles || titles[dep] == t.repository {
        continue;
      }
      var from := titles[dep];
      var key := from + ("->" + t.repository);
      if key in seen {
        continue;
      }
      seen := seen + {key};
      dag := dag[from := Node(dag, from) + [t.repository]];
    }
    assert t.dependsOn[..|t.dependsOn|] == t.dependsOn;
  }

  lemma {:induction false} UpstreamDagStep(titles: map<string, string>, tasks: seq<Task>, i: nat)
    requires i < |tasks|
    ensures var before, t := UpstreamDag(titles, tasks[..i]), tasks[i];
      UpstreamDag(titles, tasks[..i + 1])
      == if t.Task?
         then UpstreamedAll(WithNode(before, t.repository), ReplanEdgesOf(titles, t.repository, t.dependsOn))
         else before
  {
    assert tasks[..i + 1][..i] == tasks[..i];
  }

  /** Every task is named, or the whole artifact is refused. */
  method AllNamed(tasks: seq<Task>) returns (named: bool)
    ensures named <==> forall i :: 0 <= i < |tasks| ==> !Nameless(tasks[i])
  {
    for i := 0 to |tasks|
      invariant forall j :: 0 <= j < i ==> !Nameless(tasks[j])
    {
      if tasks[i].Task? && (TrimSpace(tasks[i].repository) == "" || TrimSpace(tasks[i].title) == "") {
        assert Nameless(tasks[i]);
        return false;
      }
    }
    return true;
  }

  method ReplanTasksFromArtifact(tasks: seq<Task>) returns (result: Option<Dag>)
    ensures result == ReplanDag(tasks)
  {
    hide UpstreamDag, UpstreamedAll, Titles, Nameless;
    var named := AllNamed(tasks);
    if !named {
      return None;
    }
    var titles := BuildTitles(tasks);
    var dag, any := BuildUpstreamDag(titles, tasks);
    result := if any then Some(dag) else None;
  }

  /** The outer loop of the second pass. */
  method BuildUpstreamDag(titles: map<string, string>, tasks: seq<Task>) returns (dag: Dag, any: bool)
    ensures dag == UpstreamDag(titles, tasks)
    ensures any <==> exists i :: 0 <= i < |tasks| && tasks[i].Task?
  {
    dag, any := map[], false;
    assert UpstreamDag(titles, tasks[..0]) == map[];
    hide UpstreamDag, UpstreamedAll, ReplanEdgesOf;
    for i := 0 to |tasks|
      invariant dag == UpstreamDag(titles, tasks[..i])
      invariant any <==> exists j :: 0 <= j < i && tasks[j].Task?
    {
      UpstreamDagStep(titles, tasks, i);
      if tasks[i].NotATask? {
        continue;
      }
      any := true;
      dag := AddUpstreams(titles, tasks[i].repository, tasks[i].dependsOn, WithNode(dag, tasks[i].repository));
    }
    assert tasks[..|tasks|] == tasks;
  }

  lemma {:induction false} ReplanEdgesOfStep(titles: map<string, string>, repository: string, deps: seq<string>, j: nat)
    requires j < |deps|
    ensures ReplanEdgesOf(titles, repository, deps[..j + 1])
      == ReplanEdgesOf(titles, repository, deps[..j]) + ReplanEdge(titles, repository, deps[j])
  {
    assert deps[..j + 1][..j] == deps[..j];
  }

  lemma {:induction false} UpstreamedAppend(base: Dag, edges: seq<Edge>, e: Edge)
    ensures UpstreamedAll(base, edges + [e]) == Upstreamed(UpstreamedAll(base, edges), e)
  {
    assert (edges + [e])[..|edges|] == edges;
  }

  /** One more dependency: no edge, or one edge on top of the map so far. */
  lemma {:induction false} UpstreamStep(titles: map<string, string>, repository: string, deps: seq<string>, base: Dag, j: nat)
    requires j < |deps|
    ensures var dag, one := UpstreamedAll(base, ReplanEdgesOf(titles, repository, deps[..j])),
        ReplanEdge(titles, repository, deps[j]);
      UpstreamedAll(base, ReplanEdgesOf(titles, repository, deps[..j + 1]))
      == if one == [] then dag else Upstreamed(dag, one[0])
  {
    hide UpstreamedAll, ReplanEdgesOf;
    var edges, one := ReplanEdgesOf(titles, repository, deps[..j]), ReplanEdge(titles, repository, deps[j]);
    ReplanEdgesOfStep(titles, repository, deps, j);
    if one == [] {
      assert edges + one == edges;
    } else {
      assert one == [one[0]];
      UpstreamedAppend(base, edges, one[0]);
    }
  }

  /** The inner loop: a linear search of the list built so far keeps duplicates out. */
  method AddUpstreams(titles: map<string, string>, repository: string, deps: seq<string>, base: Dag) returns (dag: Dag)
    requires repository in base
    ensures dag == UpstreamedAll(base, ReplanEdgesOf(titles, repository, deps))
  {
    dag := base;
    assert UpstreamedAll(base, ReplanEdgesOf(titles, repository, deps[..0])) == base;
    hide UpstreamedAll, ReplanEdgesOf;
    for j := 0 to |deps|
      invariant dag == UpstreamedAll(base, ReplanEdgesOf(titles, repository, deps[..j]))
      invariant repository in dag
    {
      UpstreamStep(titles, repository, deps, base, j);
      var title := TrimSpace(deps[j]);
      if title !in titles || titles[title] == repository || TrimSpace(titles[title]) == "" {
        continue;
      }
      var from := titles[title];
      var dup := Listed(dag[repository], from);
      if !dup {
        dag := dag[repository := dag[repository] + [from]];
      }
    }
    assert deps[..|deps|] == deps;
  }

  method Listed(names: seq<string>, name: string) returns (dup: bool)
    ensures dup <==> name in names
  {
    for k := 0 to |names|
      invariant name !in names[..k]
    {
      assert names[..k + 1] == names[..k] + [names[k]];
      if names[k] == name {
        return true;
      }
    }
    assert names[..|names|] == names;
    return false;
  }

  // ---- what the two maps say ----

  predicate FirstAt(edges: seq<Edge>, e: Edge, i: int) {
    0 <= i < |edges| && edges[i] == e && forall j :: 0 <= j < i ==> KeyOf(edges[j]) != KeyOf(e)
  }

  /** The plan's map holds an edge exactly when it is the first with its key. */
  predicate HasKey(edges: seq<Edge>, key: string) {
    exists i :: 0 <= i < |edges| && KeyOf(edges[i]) == key
  }

  lemma {:induction false} HasKeyStep(edges: seq<Edge>, key: string)
    requires edges != []
    ensures HasKey(edges, key) <==> HasKey(edges[..|edges| - 1], key) || KeyOf(edges[|edges| - 1]) == key
  {
    assert forall i :: 0 <= i < |edges| - 1 ==> edges[..|edges| - 1][i] == edges[i];
  }

  lemma {:induction false} SeenMeans(base: Dag, edges: seq<Edge>, key: string)
    ensures key in LinkedAll(base, edges).seen <==> HasKey(edges, key)
    decreases |edges|
  {
    if edges != [] {
      SeenMeans(base, edges[..|edges| - 1], key);
      HasKeyStep(edges, key);
    }
  }

  ghost predicate IsFirst(edges: seq<Edge>, e: Edge) {
    exists i :: FirstAt(edges, e, i)
  }

  lemma {:induction false} IsFirstStep(edges: seq<Edge>, e: Edge)
    requires edges != []
    ensures var before, last := edges[..|edges| - 1], edges[|edges| - 1];
      IsFirst(edges, e) <==> IsFirst(before, e) || (last == e && !HasKey(before, KeyOf(e)))
  {
    var n := |edges| - 1;
    assert forall i :: 0 <= i < n ==> edges[..n][i] == edges[i];
    assert forall i :: FirstAt(edges[..n], e, i) ==> FirstAt(edges, e, i);
    assert forall i :: FirstAt(edges, e, i) && i < n ==> FirstAt(edges[..n], e, i);
    assert FirstAt(edges, e, n) <==> edges[n] == e && !HasKey(edges[..n], KeyOf(e));
  }

  /** The plan's map holds an edge exactly when it is the first with its key. */
  lemma {:induction false} PlanMapMeans(base: Dag, edges: seq<Edge>, e: Edge)
    requires forall a :: Node(base, a) == []
    ensures e.to in Node(LinkedAll(base, edges).dag, e.from) <==> IsFirst(edges, e)
    decreases |edges|
  {
    if edges == [] {
      assert forall i :: !FirstAt(edges, e, i);
    } else {
      PlanMapMeans(base, edges[..|edges| - 1], e);
      IsFirstStep(edges, e);
      SeenMeans(base, edges[..|edges| - 1], KeyOf(edges[|edges| - 1]));
    }
  }

  lemma {:induction false} UpstreamMapMeans(base: Dag, edges: seq<Edge>, a: string, b: string)
    ensures a in Node(UpstreamedAll(base, edges), b) <==> a in Node(base, b) || Edge(a, b) in edges
    decreases |edges|
  {
    if edges != [] {
      UpstreamMapMeans(base, edges[..|edges| - 1], a, b);
      assert edges == edges[..|edges| - 1] + [edges[|edges| - 1]];
    }
  }

  lemma {:induction false} ReplanMapMeans(titles: map<string, string>, tasks: seq<Task>, a: string, b: string)
    ensures a in Node(UpstreamDag(titles, tasks), b) <==> Edge(a, b) in ReplanEdges(titles, tasks)
    decreases |tasks|
  {
    if tasks != [] {
      var before, last := UpstreamDag(titles, tasks[..|tasks| - 1]), tasks[|tasks| - 1];
      ReplanMapMeans(titles, tasks[..|tasks| - 1], a, b);
      if last.Task? {
        var edges := ReplanEdgesOf(titles, last.repository, last.dependsOn);
        UpstreamMapMeans(WithNode(before, last.repository), edges, a, b);
      }
    }
  }

  // ---- well-formed task lists ----

  predicate WellFormed(tasks: seq<Task>) {
    tasks != [] && forall i :: 0 <= i < |tasks| ==> WellFormedTask(tasks[i])
  }

  predicate WellFormedTask(t: Task) {
    Usable(t) && forall j :: 0 <= j < |t.dependsOn| ==> TrimSpace(t.dependsOn[j]) == t.dependsOn[j]
  }

  predicate NamedBoth(titles: map<string, string>) {
    forall title :: title in titles ==> !Blank(title) && !Blank(titles[title])
  }

  lemma {:induction false} TitlesAreNamed(tasks: seq<Task>)
    requires forall i :: 0 <= i < |tasks| ==> WellFormedTask(tasks[i])
    ensures NamedBoth(Titles(tasks))
    decreases |tasks|
  {
    if tasks != [] {
      assert WellFormedTask(tasks[|tasks| - 1]);
      TitlesAreNamed(tasks[..|tasks| - 1]);
    }
  }

  lemma {:induction false} SameEdgesOf(titles: map<string, string>, repository: string, deps: seq<string>)
    requires NamedBoth(titles) && forall j :: 0 <= j < |deps| ==> TrimSpace(deps[j]) == deps[j]
    ensures PlanEdgesOf(titles, repository, deps) == ReplanEdgesOf(titles, repository, deps)
    decreases |deps|
  {
    if deps != [] {
      var dep := deps[|deps| - 1];
      SameEdgesOf(titles, repository, deps[..|deps| - 1]);
      assert TrimSpace(dep) == dep;
      assert dep in titles ==> !Blank(dep) && !Blank(titles[dep]);
    }
  }

  /** On well-formed tasks both loops resolve the same edges in the same order. */
  lemma {:induction false} SameEdges(titles: map<string, string>, tasks: seq<Task>)
    requires NamedBoth(titles) && forall i :: 0 <= i < |tasks| ==> WellFormedTask(tasks[i])
    ensures PlanEdges(titles, tasks) == ReplanEdges(titles, tasks)
    decreases |tasks|
  {
    if tasks != [] {
      var last := tasks[|tasks| - 1];
      assert WellFormedTask(last);
      SameEdges(titles, tasks[..|tasks| - 1]);
      SameEdgesOf(titles, last.repository, last.dependsOn);
    }
  }

  /** A well-formed list is what Materialize plans. */
  lemma {:induction false} WellFormedIsPlanned(plan: Plan)
    requires WellFormed(plan.tasks)
    ensures Planned(plan) == plan.tasks
  {
    AllUsable(plan.tasks);
  }

  lemma {:induction false} AllUsable(tasks: seq<Task>)
    requires forall i :: 0 <= i < |tasks| ==> WellFormedTask(tasks[i])
    ensures UsableTasks(tasks) == tasks
    decreases |tasks|
  {
    if tasks != [] {
      AllUsable(tasks[..|tasks| - 1]);
      assert WellFormedTask(tasks[|tasks| - 1]);
      assert tasks == tasks[..|tasks| - 1] + [tasks[|tasks| - 1]];
    }
  }

  // ---- the converse ----

  /** The two maps hold the same edges, stored in opposite directions. */
  ghost predicate Converse(plan: Dag, replan: Dag) {
    forall e: Edge :: e.to in Node(plan, e.from) <==> e.from in Node(replan, e.to)
  }

  /** No two different edges print the same key. */
  predicate KeysApart(edges: seq<Edge>) {
    forall i, j :: 0 <= i < |edges| && 0 <= j < |edges| && KeyOf(edges[i]) == KeyOf(edges[j]) ==> edges[i] == edges[j]
  }

  lemma {:induction false} FirstOf(edges: seq<Edge>, e: Edge, n: nat)
    requires n <= |edges| && e in edges[..n] && KeysApart(edges)
    ensures IsFirst(edges, e)
    decreases n
  {
    assert edges[..n] == edges[..n - 1] + [edges[n - 1]];
    if e in edges[..n - 1] {
      FirstOf(edges, e, n - 1);
    } else {
      forall j | 0 <= j < n - 1
        ensures KeyOf(edges[j]) != KeyOf(e)
      {
        assert edges[..n - 1][j] == edges[j] && edges[n - 1] == e;
      }
      assert FirstAt(edges, e, n - 1);
    }
  }

  lemma {:induction false} WellFormedIsReplanned(tasks: seq<Task>)
    requires WellFormed(tasks)
    ensures ReplanDag(tasks) == Some(UpstreamDag(Titles(tasks), tasks))
  {
    assert WellFormedTask(tasks[0]);
    assert forall i :: 0 <= i < |tasks| ==> WellFormedTask(tasks[i]) && !Nameless(tasks[i]);
  }

  /** What each map says of one edge. */
  lemma {:induction false} MapsMean(repositories: seq<string>, tasks: seq<Task>, e: Edge)
    requires WellFormed(tasks)
    ensures e.to in Node(PlanDag(repositories, tasks), e.from) <==> IsFirst(PlanEdges(Titles(tasks), tasks), e)
    ensures e.from in Node(UpstreamDag(Titles(tasks), tasks), e.to) <==> e in PlanEdges(Titles(tasks), tasks)
  {
    TitlesAreNamed(tasks);
    SameEdges(Titles(tasks), tasks);
    PlanMapMeans(Empty(repositories), PlanEdges(Titles(tasks), tasks), e);
    ReplanMapMeans(Titles(tasks), tasks, e.from, e.to);
    assert Edge(e.from, e.to) == e;
  }

  lemma {:induction false} FirstIsIn(edges: seq<Edge>, e: Edge)
    requires IsFirst(edges, e)
    ensures e in edges
  {
  }

  /** The planned map is the converse of the replanned one exactly when no two edges share a key. */
  lemma {:induction false} ConverseIff(repositories: seq<string>, tasks: seq<Task>)
    requires WellFormed(tasks)
    ensures ReplanDag(tasks).Some?
    ensures Converse(PlanDag(repositories, tasks), ReplanDag(tasks).value)
      <==> KeysApart(PlanEdges(Titles(tasks), tasks))
  {
    var edges := PlanEdges(Titles(tasks), tasks);
    WellFormedIsReplanned(tasks);
    if KeysApart(edges) {
      forall e: Edge
        ensures e.to in Node(PlanDag(repositories, tasks), e.from)
          <==> e.from in Node(UpstreamDag(Titles(tasks), tasks), e.to)
      {
        MapsMean(repositories, tasks, e);
        if e in edges {
          assert edges[..|edges|] == edges;
          FirstOf(edges, e, |edges|);
        }
        if IsFirst(edges, e) {
          FirstIsIn(edges, e);
        }
      }
    } else {
      var i, j :| 0 <= i < |edges| && 0 <= j < |edges| && KeyOf(edges[i]) == KeyOf(edges[j]) && edges[i] != edges[j];
      NotBothFirst(edges, edges[i], edges[j]);
      MapsMean(repositories, tasks, edges[i]);
      MapsMean(repositories, tasks, edges[j]);
    }
  }

  lemma {:induction false} FirstIsUnique(edges: seq<Edge>, d: Edge, i: int, e: Edge, j: int)
    requires FirstAt(edges, d, i) && FirstAt(edges, e, j) && KeyOf(d) == KeyOf(e)
    ensures d == e
  {
    assert edges[i] == d && edges[j] == e;
  }

  lemma {:induction false} NotBothFirst(edges: seq<Edge>, d: Edge, e: Edge)
    requires d != e && KeyOf(d) == KeyOf(e)
    ensures !IsFirst(edges, d) || !IsFirst(edges, e)
  {
    forall i, j
      ensures !(FirstAt(edges, d, i) && FirstAt(edges, e, j))
    {
      assert FirstAt(edges, d, i) && FirstAt(edges, e, j) ==> d == e by {
        if FirstAt(edges, d, i) && FirstAt(edges, e, j) {
          FirstIsUnique(edges, d, i, e, j);
        }
      }
    }
  }

  /** Repository names without '>' keep the keys apart. */
  lemma {:induction false} PlainNamesKeepApart(d: Edge, e: Edge)
    requires '>' !in d.from && '>' !in e.from && KeyOf(d) == KeyOf(e)
    ensures d == e
  {
    var key, m, n := KeyOf(d), |d.from|, |e.from|;
    assert key[m + 1] == '>' && key[n + 1] == '>';
    assert forall k :: 0 <= k < m ==> key[k] == d.from[k] && key[k] != '>';
    assert forall k :: 0 <= k < n ==> key[k] == e.from[k] && key[k] != '>';
    assert key[m] == '-' && key[n] == '-';
    assert m == n;
    assert d.from == key[..m] && d.to == key[m + 2..] && e.from == key[..n] && e.to == key[n + 2..];
  }

  predicate PlainTitles(titles: map<string, string>) {
    forall title :: title in titles ==> '>' !in titles[title]
  }

  predicate PlainFrom(edges: seq<Edge>) {
    forall i :: 0 <= i < |edges| ==> '>' !in edges[i].from
  }

  lemma {:induction false} PlainEdgesOf(titles: map<string, string>, repository: string, deps: seq<string>)
    requires PlainTitles(titles)
    ensures PlainFrom(PlanEdgesOf(titles, repository, deps))
    decreases |deps|
  {
    if deps != [] {
      PlainEdgesOf(titles, repository, deps[..|deps| - 1]);
    }
  }

  lemma {:induction false} PlainEdges(titles: map<string, string>, tasks: seq<Task>)
    requires PlainTitles(titles)
    ensures PlainFrom(PlanEdges(titles, tasks))
    decreases |tasks|
  {
    if tasks != [] {
      var last := tasks[|tasks| - 1];
      PlainEdges(titles, tasks[..|tasks| - 1]);
      if last.Task? {
        PlainEdgesOf(titles, last.repository, last.dependsOn);
      }
    }
  }

  lemma {:induction false} TitlesArePlain(tasks: seq<Task>)
    requires forall i :: 0 <= i < |tasks| && tasks[i].Task? ==> '>' !in tasks[i].repository
    ensures PlainTitles(Titles(tasks))
    decreases |tasks|
  {
    if tasks != [] {
      TitlesArePlain(tasks[..|tasks| - 1]);
    }
  }

  /** So for repository names without '>' the two maps are always converses. */
  lemma {:induction false} PlainNamesAreConverse(repositories: seq<string>, tasks: seq<Task>)
    requires WellFormed(tasks)
    requires forall i :: 0 <= i < |tasks| && tasks[i].Task? ==> '>' !in tasks[i].repository
    ensures ReplanDag(tasks).Some? && Converse(PlanDag(repositories, tasks), ReplanDag(tasks).value)
  {
    var edges := PlanEdges(Titles(tasks), tasks);
    TitlesArePlain(tasks);
    PlainEdges(Titles(tasks), tasks);
    forall i, j | 0 <= i < |edges| && 0 <= j < |edges| && KeyOf(edges[i]) == KeyOf(edges[j])
      ensures edges[i] == edges[j]
    {
      PlainNamesKeepApart(edges[i], edges[j]);
    }
    ConverseIff(repositories, tasks);
  }

  // Four repositories p, q->r, p->q and r; the second depends on the first and the fourth on the third.
  function Colliding(p: string, q: string, r: string): seq<Task> {
    [Task(p, "one", "", []), Task(q + ("->" + r), "two", "", ["one"]),
     Task(p + ("->" + q), "three", "", []), Task(r, "four", "", ["three"])]
  }

  function CollidingNames(p: string, q: string, r: string): seq<string> {
    [p, q + ("->" + r), p + ("->" + q), r]
  }

  lemma {:induction false} TitlesAppend(tasks: seq<Task>, t: Task)
    requires t.Task?
    ensures Titles(tasks + [t]) == Titles(tasks)[t.title := t.repository]
  {
    assert (tasks + [t])[..|tasks|] == tasks;
  }

  lemma {:induction false} PlanEdgesAppend(titles: map<string, string>, tasks: seq<Task>, t: Task)
    requires t.Task?
    ensures PlanEdges(titles, tasks + [t]) == PlanEdges(titles, tasks) + PlanEdgesOf(titles, t.repository, t.dependsOn)
  {
    assert (tasks + [t])[..|tasks|] == tasks;
  }

  lemma {:induction false} OneDependency(titles: map<string, string>, repository: string, dep: string)
    requires !Blank(dep) && dep in titles && titles[dep] != repository
    ensures PlanEdgesOf(titles, repository, [dep]) == [Edge(titles[dep], repository)]
  {
    assert [dep][..0] == [];
  }

  function CollidingTitles(p: string, q: string, r: string): map<string, string> {
    map["one" := p, "two" := q + ("->" + r), "three" := p + ("->" + q), "four" := r]
  }

  lemma {:induction false} TitlesCollide(p: string, q: string, r: string)
    ensures Titles(Colliding(p, q, r)) == CollidingTitles(p, q, r)
  {
    var ts := Colliding(p, q, r);
    assert [ts[0]] == [] + [ts[0]] && [ts[0], ts[1]] == [ts[0]] + [ts[1]];
    assert [ts[0], ts[1], ts[2]] == [ts[0], ts[1]] + [ts[2]] && ts == [ts[0], ts[1], ts[2]] + [ts[3]];
    TitlesAppend([], ts[0]);
    TitlesAppend([ts[0]], ts[1]);
    TitlesAppend([ts[0], ts[1]], ts[2]);
    TitlesAppend([ts[0], ts[1], ts[2]], ts[3]);
  }

  lemma {:induction false} EdgesCollide(titles: map<string, string>, ts: seq<Task>, d: Edge, e: Edge)
    requires |ts| == 4 && AllTasks(ts) && ts[0].dependsOn == [] && ts[2].dependsOn == []
    requires PlanEdgesOf(titles, ts[1].repository, ts[1].dependsOn) == [d]
    requires PlanEdgesOf(titles, ts[3].repository, ts[3].dependsOn) == [e]
    ensures PlanEdges(titles, ts) == [d, e]
  {
    assert [ts[0]] == [] + [ts[0]] && [ts[0], ts[1]] == [ts[0]] + [ts[1]];
    assert [ts[0], ts[1], ts[2]] == [ts[0], ts[1]] + [ts[2]] && ts == [ts[0], ts[1], ts[2]] + [ts[3]];
    PlanEdgesAppend(titles, [], ts[0]);
    PlanEdgesAppend(titles, [ts[0]], ts[1]);
    PlanEdgesAppend(titles, [ts[0], ts[1]], ts[2]);
    PlanEdgesAppend(titles, [ts[0], ts[1], ts[2]], ts[3]);
  }

  /** A name without whitespace at its ends. */
  predicate Solid(text: string) {
    text != "" && !IsSpace(text[0]) && !IsSpace(text[|text| - 1])
  }

  lemma {:induction false} SolidStays(text: string)
    requires Solid(text)
    ensures TrimSpace(text) == text && !Blank(text)
  {
  }

  lemma {:induction false} SolidJoin(a: string, b: string)
    requires Solid(a) && Solid(b)
    ensures Solid(a + ("->" + b))
  {
  }

  lemma {:induction false} TitlesAreSolid()
    ensures Solid("one") && Solid("two") && Solid("three") && Solid("four")
  {
  }

  lemma {:induction false} CollidingIsWellFormed(p: string, q: string, r: string)
    requires Solid(p) && Solid(q) && Solid(r)
    ensures WellFormed(Colliding(p, q, r))
  {
    var ts := Colliding(p, q, r);
    SolidJoin(q, r);
    SolidJoin(p, q);
    TitlesAreSolid();
    forall i | 0 <= i < |ts|
      ensures WellFormedTask(ts[i])
    {
      SolidStays(ts[i].repository);
      SolidStays(ts[i].title);
      SolidStays("one");
      SolidStays("three");
    }
  }

  lemma {:induction false} CollisionBreaks(repositories: seq<string>, tasks: seq<Task>, d: Edge, e: Edge)
    requires WellFormed(tasks) && PlanEdges(Titles(tasks), tasks) == [d, e] && d != e && KeyOf(d) == KeyOf(e)
    ensures ReplanDag(tasks).Some? && !Converse(PlanDag(repositories, tasks), ReplanDag(tasks).value)
  {
    ConverseIff(repositories, tasks);
    var edges := PlanEdges(Titles(tasks), tasks);
    assert edges[0] == d && edges[1] == e;
  }

  /** A run that gets these repositories approved and this task list planned, from an empty document and with
      nothing but the confirmed scope. */
  function PlannedWorld(names: seq<string>, tasks: seq<Task>): World {
    Run(Unplanned(names), [Candidates(Items(names)), Classify("", 0), Approve("", "approved", [], 0),
                           AgentPlan(Given(names), tasks)])
  }

  function Unplanned(names: seq<string>): World {
    World(Doc(None, None, None, [], None, None, NotYet, map[]), ToSet(names), false, [], map[])
  }

  function Items(names: seq<string>): seq<Item> {
    if names == [] then []
    else Items(names[..|names| - 1]) + [Item(names[|names| - 1], Some(Required), 1.0, false, false, false)]
  }

  lemma {:induction false} InScopeAppend(items: seq<Item>, item: Item, scope: set<string>)
    requires item.Item? && item.repository in scope
    ensures ScopeSafety.InScope(items + [item], scope) == ScopeSafety.InScope(items, scope) + [item.repository]
  {
    assert (items + [item])[..|items|] == items;
  }

  lemma {:induction false} ItemsAreNamed(names: seq<string>, scope: set<string>)
    requires forall i :: 0 <= i < |names| ==> names[i] in scope
    ensures ScopeSafety.InScope(Items(names), scope) == names
    decreases |names|
  {
    if names != [] {
      var n := |names| - 1;
      ItemsAreNamed(names[..n], scope);
      InScopeAppend(Items(names[..n]), Item(names[n], Some(Required), 1.0, false, false, false), scope);
      hide ScopeSafety.InScope;
      assert names == names[..n] + [names[n]];
    }
  }

  lemma {:induction false} CandidatesAreNamed(names: seq<string>)
    ensures ScopeSafety.CandidateNames(Items(names)) * ToSet(names) == ToSet(names)
  {
    ItemsAreNamed(names, ToSet(names));
    var candidates := ScopeSafety.CandidateNames(Items(names));
    forall x
      ensures x in candidates * ToSet(names) <==> x in ToSet(names)
    {
      ScopeSafety.InScopeMeans(Items(names), ToSet(names), x);
    }
  }

  lemma {:induction false} RunOfFour(w: World, a: Action, b: Action, c: Action, d: Action)
    ensures Run(w, [a, b, c, d]) == Apply(Apply(Apply(Apply(w, a), b), c), d)
  {
    var all := [a, b, c, d];
    RunFirst(w, all);
    RunFirst(Apply(w, a), all[1..]);
    RunFirst(Apply(Apply(w, a), b), all[1..][1..]);
    RunFirst(Apply(Apply(Apply(w, a), b), c), all[1..][1..][1..]);
    hide Apply;
    assert all[1..][1..][1..][1..] == [];
  }

  lemma {:induction false} RunFirst(w: World, actions: seq<Action>)
    requires actions != []
    ensures Run(w, actions) == Run(Apply(w, actions[0]), actions[1..])
  {
    hide Apply;
  }

  /** The world before the agent's plan: classified and approved. */
  function Approved(names: seq<string>): World {
    ScopeSafety.AfterApproval(Apply(Unplanned(names), Candidates(Items(names))), "", 0, "")
  }

  lemma {:induction false} ApprovalSelects(names: seq<string>)
    requires names != [] && Distinct(names)
    ensures var w := Approved(names);
      w.doc.approval == Some("approved") && w.scope == ToSet(names)
      && Selected(w.doc.tiers).Chosen? && ToSet(Selected(w.doc.tiers).names) == ToSet(names)
      && forall k :: !Replays(w.doc, k)
  {
    var w, items := Apply(Unplanned(names), Candidates(Items(names))), Items(names);
    ItemsAreNamed(names, ToSet(names));
    CandidatesAreNamed(names);
    assert names[0] in ToSet(names);
    ScopeSafety.ClassificationSucceeds(w, "", 0);
    ScopeSafety.ClassifiedState(w, "", 0);
    ScopeSafety.ApprovedState(w, "", 0, "");
    ScopeSafety.FreshSelection(items, ToSet(names));
    hide Selected, TiersOf, Classified, ValidRepositories;
    assert forall k :: !Replays(w.doc, k);
  }

  lemma {:induction false} PlannedIs(names: seq<string>, tasks: seq<Task>)
    ensures PlannedWorld(names, tasks) == PlanArtifactStep(Approved(names), Given(names), tasks)
  {
    RunOfFour(Unplanned(names), Candidates(Items(names)), Classify("", 0), Approve("", "approved", [], 0),
              AgentPlan(Given(names), tasks));
    hide Run, ClassificationStep, ApprovalStep, PlanArtifactStep;
  }

  lemma {:induction false} PlanIsAccepted(names: seq<string>, tasks: seq<Task>, key: string)
    requires names != [] && Distinct(names) && WellFormed(tasks) && TasksWithin(tasks, ToSet(names))
    ensures MaterializeStep(PlannedWorld(names, tasks), key).1.Accepted?
    ensures Planned(PlannedWorld(names, tasks).doc.plan.value) == tasks
  {
    PlanIsReady(names, tasks);
    ScopeSafety.MaterializeNeeds(PlannedWorld(names, tasks), key);
  }

  lemma {:induction false} PlanIsReady(names: seq<string>, tasks: seq<Task>)
    requires names != [] && Distinct(names) && WellFormed(tasks) && TasksWithin(tasks, ToSet(names))
    ensures ScopeSafety.Ready(PlannedWorld(names, tasks)) && forall k :: !Replays(PlannedWorld(names, tasks).doc, k)
    ensures Planned(PlannedWorld(names, tasks).doc.plan.value) == tasks
  {
    PlannedIs(names, tasks);
    ApprovalSelects(names);
    ApprovedIsReady(Approved(names), names, tasks);
    hide *;
  }

  lemma {:induction false} ApprovedIsReady(w: World, names: seq<string>, tasks: seq<Task>)
    requires names != [] && Distinct(names) && WellFormed(tasks) && TasksWithin(tasks, ToSet(names))
    requires w.doc.approval == Some("approved") && w.scope == ToSet(names) && Selected(w.doc.tiers).Chosen?
    requires ToSet(Selected(w.doc.tiers).names) == ToSet(names) && forall k :: !Replays(w.doc, k)
    ensures var t := PlanArtifactStep(w, Given(names), tasks);
      ScopeSafety.Ready(t) && Planned(t.doc.plan.value) == tasks && forall k :: !Replays(t.doc, k)
  {
    var t := PlanArtifactStep(w, Given(names), tasks);
    PlanOfTasks(w, names, tasks);
    SameReceipts(w.doc, t.doc);
    hide *;
    NamedIsReady(t, names);
  }

  lemma {:induction false} SameReceipts(d: Doc, e: Doc)
    requires d.receipts == e.receipts
    ensures forall k :: Replays(d, k) <==> Replays(e, k)
  {
  }

  lemma {:induction false} NamedIsReady(w: World, names: seq<string>)
    requires w.doc.plan.Some? && w.doc.approval == Some("approved") && Selected(w.doc.tiers).Chosen?
    requires Strings(w.doc.plan.value.repositories) == names && names != [] && Distinct(names)
    requires w.scope == ToSet(names) == ToSet(Selected(w.doc.tiers).names)
    requires TasksWithin(Planned(w.doc.plan.value), ToSet(names))
    ensures ScopeSafety.Ready(w)
  {
    hide Selected, Strings, Planned, Distinct, TasksWithin, ToSet;
  }

  lemma {:induction false} PlanOfTasks(w: World, names: seq<string>, tasks: seq<Task>)
    requires names != [] && WellFormed(tasks)
    ensures var t := PlanArtifactStep(w, Given(names), tasks);
      t.doc.plan.Some? && Strings(t.doc.plan.value.repositories) == names && Planned(t.doc.plan.value) == tasks
      && t.doc.approval == w.doc.approval && t.doc.tiers == w.doc.tiers && t.doc.receipts == w.doc.receipts
      && t.scope == w.scope
  {
    ScopeSafety.StringsOfGiven(names);
    assert |Given(names)| == |names|;
    WellFormedIsPlanned(PlanArtifactStep(w, Given(names), tasks).doc.plan.value);
  }

  lemma {:induction false} CollidingKeys(p: string, q: string, r: string)
    ensures KeyOf(Edge(p, q + ("->" + r))) == KeyOf(Edge(p + ("->" + q), r))
  {
    assert p + ("->" + (q + ("->" + r))) == (p + ("->" + q)) + ("->" + r);
  }

  /** The failing family: whenever these four repositories are confirmed, Materialize accepts the plan and its
      map loses the second edge, which the replan artifact keeps. */
  lemma {:induction false} ConverseFails(p: string, q: string, r: string, key: string)
    requires Solid(p) && Solid(q) && Solid(r) && Distinct(CollidingNames(p, q, r))
    ensures var names, tasks := CollidingNames(p, q, r), Colliding(p, q, r);
      && MaterializeStep(PlannedWorld(names, tasks), key).1.Accepted?
      && Planned(PlannedWorld(names, tasks).doc.plan.value) == tasks
      && ReplanDag(tasks).Some? && !Converse(PlanDag(names, tasks), ReplanDag(tasks).value)
  {
    hide PlannedWorld, Planned;
    var names, tasks, titles := CollidingNames(p, q, r), Colliding(p, q, r), CollidingTitles(p, q, r);
    var d, e := Edge(p, q + ("->" + r)), Edge(p + ("->" + q), r);
    CollidingIsWellFormed(p, q, r);
    PlanIsAccepted(names, tasks, key);
    TitlesCollide(p, q, r);
    TitlesAreSolid();
    SolidStays("one");
    SolidStays("three");
    assert names[0] != names[1] && names[2] != names[3];
    OneDependency(titles, names[1], "one");
    OneDependency(titles, names[3], "three");
    EdgesCollide(titles, tasks, d, e);
    CollidingKeys(p, q, r);
    assert |d.from| != |e.from|;
    CollisionBreaks(names, tasks, d, e);
  }

  /** Four such names of the shape owner/name. */
  lemma {:induction false} CollidingNamesExist()
    ensures Solid("o/a") && Solid("b") && Solid("o/c") && Distinct(CollidingNames("o/a", "b", "o/c"))
    ensures CollidingNames("o/a", "b", "o/c") == ["o/a", "b->o/c", "o/a->b", "o/c"]
  {
    var names := ["o/a", "b->o/c", "o/a->b", "o/c"];
    assert "b" + ("->" + "o/c") == "b->o/c";
    assert "o/a" + ("->" + "b") == "o/a->b";
    assert names[0][2] != names[3][2] && names[1][0] != names[2][0];
  }

  // ---- shape ----

  predicate SimpleList(list: seq<string>, a: string) {
    Distinct(list) && a !in list
  }

  lemma {:induction false} PlanLinksAreSimple(base: Dag, edges: seq<Edge>, a: string)
    requires forall b :: Node(base, b) == []
    requires forall i :: 0 <= i < |edges| ==> edges[i].from != edges[i].to
    ensures SimpleList(Node(LinkedAll(base, edges).dag, a), a)
    ensures forall b :: b in Node(LinkedAll(base, edges).dag, a) ==> KeyOf(Edge(a, b)) in LinkedAll(base, edges).seen
    decreases |edges|
  {
    if edges != [] {
      PlanLinksAreSimple(base, edges[..|edges| - 1], a);
    }
  }

  lemma {:induction false} PlanEdgesAreProper(titles: map<string, string>, repository: string, deps: seq<string>)
    ensures forall i :: 0 <= i < |PlanEdgesOf(titles, repository, deps)| ==>
      PlanEdgesOf(titles, repository, deps)[i].from != repository && PlanEdgesOf(titles, repository, deps)[i].to == repository
    decreases |deps|
  {
    if deps != [] {
      PlanEdgesAreProper(titles, repository, deps[..|deps| - 1]);
    }
  }

  lemma {:induction false} AllPlanEdgesAreProper(titles: map<string, string>, tasks: seq<Task>)
    ensures forall i :: 0 <= i < |PlanEdges(titles, tasks)| ==>
      PlanEdges(titles, tasks)[i].from != PlanEdges(titles, tasks)[i].to
    decreases |tasks|
  {
    if tasks != [] {
      var last := tasks[|tasks| - 1];
      AllPlanEdgesAreProper(titles, tasks[..|tasks| - 1]);
      if last.Task? {
        PlanEdgesAreProper(titles, last.repository, last.dependsOn);
      }
    }
  }

  /** No repository depends on itself and no dependency is listed twice, in the map of Materialize … */
  lemma {:induction false} PlanDagIsSimple(repositories: seq<string>, planned: seq<Task>, a: string)
    ensures SimpleList(Node(PlanDag(repositories, planned), a), a)
  {
    AllPlanEdgesAreProper(Titles(planned), planned);
    PlanLinksAreSimple(Empty(repositories), PlanEdges(Titles(planned), planned), a);
  }

  lemma {:induction false} SimpleAppend(list: seq<string>, x: string, a: string)
    requires SimpleList(list, a) && x !in list && x != a
    ensures SimpleList(list + [x], a)
  {
  }

  lemma {:induction false} UpstreamedIsSimple(base: Dag, titles: map<string, string>, repository: string, deps: seq<string>, a: string)
    requires SimpleList(Node(base, a), a)
    ensures SimpleList(Node(UpstreamedAll(base, ReplanEdgesOf(titles, repository, deps)), a), a)
    decreases |deps|
  {
    if deps != [] {
      var before, more := ReplanEdgesOf(titles, repository, deps[..|deps| - 1]), ReplanEdge(titles, repository, deps[|deps| - 1]);
      UpstreamedIsSimple(base, titles, repository, deps[..|deps| - 1], a);
      if more == [] {
        assert before + more == before;
      } else {
        var dag, from := UpstreamedAll(base, before), more[0].from;
        assert (before + more)[..|before|] == before;
        if a == repository && from !in Node(dag, a) {
          SimpleAppend(Node(dag, a), from, a);
        }
      }
    }
  }

  lemma {:induction false} UpstreamDagIsSimple(titles: map<string, string>, tasks: seq<Task>, a: string)
    ensures SimpleList(Node(UpstreamDag(titles, tasks), a), a)
    decreases |tasks|
  {
    if tasks != [] {
      var before, last := UpstreamDag(titles, tasks[..|tasks| - 1]), tasks[|tasks| - 1];
      UpstreamDagIsSimple(titles, tasks[..|tasks| - 1], a);
      if last.Task? {
        UpstreamedIsSimple(WithNode(before, last.repository), titles, last.repository, last.dependsOn, a);
      }
    }
  }

  /** … and in the map of the replan artifact. */
  lemma {:induction false} ReplanDagIsSimple(tasks: seq<Task>, a: string)
    requires ReplanDag(tasks).Some?
    ensures SimpleList(Node(ReplanDag(tasks).value, a), a)
  {
    UpstreamDagIsSimple(Titles(tasks), tasks, a);
  }

  /** A repeated title means its last task, in both maps. */
  lemma {:induction false} LastTitleWins(tasks: seq<Task>, i: nat)
    requires i < |tasks| && tasks[i].Task?
    requires forall j :: i < j < |tasks| && tasks[j].Task? ==> tasks[j].title != tasks[i].title
    ensures tasks[i].title in Titles(tasks) && Titles(tasks)[tasks[i].title] == tasks[i].repository
    decreases |tasks|
  {
    if i < |tasks| - 1 {
      assert tasks[..|tasks| - 1][i] == tasks[i];
      LastTitleWins(tasks[..|tasks| - 1], i);
    }
  }
}
