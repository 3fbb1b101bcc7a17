/** What the two stored dependency maps say about the tasks they were built from, without the loops' own terms: which
    repository depends on which, and which repositories are listed at all. */
module DependencyMeaning {
  import opened Text
  import opened ScopeChain
  import opened RepoDag

  /** The title belongs to the repository: of the last task that has it. */
  predicate Titled(tasks: seq<Task>, title: string, repository: string) {
    exists j :: 0 <= j < |tasks| && LastWith(tasks, title, repository, j)
  }

  predicate LastWith(tasks: seq<Task>, title: string, repository: string, j: nat)
    requires j < |tasks|
  {
    tasks[j].Task? && tasks[j].title == title && tasks[j].repository == repository
    && forall i :: j < i < |tasks| && tasks[i].Task? ==> tasks[i].title != title
  }

  lemma {:induction false} TitlesMean(tasks: seq<Task>, title: string, repository: string)
    ensures Titled(tasks, title, repository) <==> title in Titles(tasks) && Titles(tasks)[title] == repository
    decreases |tasks|
  {
    if tasks != [] {
      var n := |tasks| - 1;
      TitlesMean(tasks[..n], title, repository);
      assert forall j :: 0 <= j < n ==> tasks[..n][j] == tasks[j];
      if tasks[n].Task? && tasks[n].title == title {
        assert LastWith(tasks, title, tasks[n].repository, n);
      } else {
        assert forall j :: 0 <= j < n ==> (LastWith(tasks, title, repository, j) <==> LastWith(tasks[..n], title, repository, j));
      }
    }
  }

  /** One dependency text of a task of `b` that names `a`; the replan artifact reads it without the space around it. */
  predicate Names(tasks: seq<Task>, replan: bool, dep: string, a: string, b: string) {
    a != b && if replan then Titled(tasks, TrimSpace(dep), a) && !Blank(a) else Titled(tasks, dep, a) && !Blank(dep)
  }

  predicate NamesSome(tasks: seq<Task>, replan: bool, deps: seq<string>, a: string, b: string) {
    exists k :: 0 <= k < |deps| && Names(tasks, replan, deps[k], a, b)
  }

  /** Some task of `b` depends on a title of `a`. */
  predicate Depends(tasks: seq<Task>, replan: bool, a: string, b: string) {
    exists i :: 0 <= i < |tasks| && TaskDepends(tasks, replan, tasks[i], a, b)
  }

  predicate TaskDepends(tasks: seq<Task>, replan: bool, t: Task, a: string, b: string) {
    t.Task? && t.repository == b && NamesSome(tasks, replan, t.dependsOn, a, b)
  }

  lemma {:induction false} EdgesOfMean(tasks: seq<Task>, deps: seq<string>, a: string, b: string, repository: string)
    ensures Edge(a, b) in PlanEdgesOf(Titles(tasks), repository, deps)
      <==> repository == b && NamesSome(tasks, false, deps, a, b)
    ensures Edge(a, b) in ReplanEdgesOf(Titles(tasks), repository, deps)
      <==> repository == b && NamesSome(tasks, true, deps, a, b)
    decreases |deps|
  {
    if deps != [] {
      var n := |deps| - 1;
      EdgesOfMean(tasks, deps[..n], a, b, repository);
      TitlesMean(tasks, deps[n], a);
      TitlesMean(tasks, TrimSpace(deps[n]), a);
      SomeStep(tasks, false, deps, a, b);
      SomeStep(tasks, true, deps, a, b);
      hide NamesSome, Titled, Titles, TrimSpace;
    }
  }

  lemma {:induction false} SomeStep(tasks: seq<Task>, replan: bool, deps: seq<string>, a: string, b: string)
    requires deps != []
    ensures NamesSome(tasks, replan, deps, a, b)
      <==> NamesSome(tasks, replan, deps[..|deps| - 1], a, b) || Names(tasks, replan, deps[|deps| - 1], a, b)
  {
    var n := |deps| - 1;
    assert forall k :: 0 <= k < n ==> deps[..n][k] == deps[k];
    hide Names;
  }

  lemma {:induction false} PlanEdgesMean(tasks: seq<Task>, n: nat, a: string, b: string)
    requires n <= |tasks|
    ensures Edge(a, b) in PlanEdges(Titles(tasks), tasks[..n])
      <==> exists i :: 0 <= i < n && TaskDepends(tasks, false, tasks[i], a, b)
    decreases n
  {
    if n > 0 {
      PlanEdgesMean(tasks, n - 1, a, b);
      var before, t := tasks[..n - 1], tasks[n - 1];
      assert tasks[..n][..n - 1] == before && tasks[..n][n - 1] == t;
      assert PlanEdges(Titles(tasks), tasks[..n])
        == PlanEdges(Titles(tasks), before) + if t.Task? then PlanEdgesOf(Titles(tasks), t.repository, t.dependsOn) else [];
      hide PlanEdges, NamesSome, Titles;
      if t.Task? {
        EdgesOfMean(tasks, t.dependsOn, a, b, t.repository);
      }
      hide PlanEdgesOf;
    }
  }

  lemma {:induction false} ReplanEdgesMean(tasks: seq<Task>, n: nat, a: string, b: string)
    requires n <= |tasks|
    ensures Edge(a, b) in ReplanEdges(Titles(tasks), tasks[..n])
      <==> exists i :: 0 <= i < n && TaskDepends(tasks, true, tasks[i], a, b)
    decreases n
  {
    if n > 0 {
      ReplanEdgesMean(tasks, n - 1, a, b);
      var before, t := tasks[..n - 1], tasks[n - 1];
      assert tasks[..n][..n - 1] == before && tasks[..n][n - 1] == t;
      assert ReplanEdges(Titles(tasks), tasks[..n])
        == ReplanEdges(Titles(tasks), before) + if t.Task? then ReplanEdgesOf(Titles(tasks), t.repository, t.dependsOn) else [];
      hide ReplanEdges, NamesSome, Titles;
      if t.Task? {
        EdgesOfMean(tasks, t.dependsOn, a, b, t.repository);
      }
      hide ReplanEdgesOf;
    }
  }

  lemma {:induction false} AllEdgesMean(tasks: seq<Task>, a: string, b: string)
    ensures Edge(a, b) in PlanEdges(Titles(tasks), tasks) <==> Depends(tasks, false, a, b)
    ensures Edge(a, b) in ReplanEdges(Titles(tasks), tasks) <==> Depends(tasks, true, a, b)
  {
    PlanEdgesMean(tasks, |tasks|, a, b);
    ReplanEdgesMean(tasks, |tasks|, a, b);
    assert tasks[..|tasks|] == tasks;
    hide PlanEdges, ReplanEdges, TaskDepends;
  }

  /** The replanned map lists `a` under `b` exactly when a task of `b` depends on a title of `a`. It is refused exactly when
      some task is nameless or none is left. */
  lemma {:induction false} ReplanDagMeans(tasks: seq<Task>, a: string, b: string)
    ensures ReplanDag(tasks).Some? <==>
      (exists i :: 0 <= i < |tasks| && tasks[i].Task?)
      && forall i :: 0 <= i < |tasks| && tasks[i].Task? ==> !Blank(tasks[i].repository) && !Blank(tasks[i].title)
    ensures ReplanDag(tasks).Some? ==> (a in Node(ReplanDag(tasks).value, b) <==> Depends(tasks, true, a, b))
  {
    assert (exists i :: 0 <= i < |tasks| && Nameless(tasks[i])) <==>
      exists i :: 0 <= i < |tasks| && tasks[i].Task? && (Blank(tasks[i].repository) || Blank(tasks[i].title));
    ReplanMapMeans(Titles(tasks), tasks, a, b);
    AllEdgesMean(tasks, a, b);
    hide UpstreamDag, Titles, ReplanEdges, Depends;
  }

  /** For repository names without '>' the planned map lists `b` under `a` exactly when a task of `b` depends on a title of
      `a`; whatever the names, it lists nothing else. */
  lemma {:induction false} PlanDagMeans(repositories: seq<string>, tasks: seq<Task>, a: string, b: string)
    ensures b in Node(PlanDag(repositories, tasks), a) ==> Depends(tasks, false, a, b)
    ensures (forall i :: 0 <= i < |tasks| && tasks[i].Task? ==> '>' !in tasks[i].repository) ==>
      (b in Node(PlanDag(repositories, tasks), a) <==> Depends(tasks, false, a, b))
  {
    var edges, e := PlanEdges(Titles(tasks), tasks), Edge(a, b);
    PlanMapMeans(Empty(repositories), edges, e);
    AllEdgesMean(tasks, a, b);
    if IsFirst(edges, e) {
      FirstIsIn(edges, e);
    }
    if (forall i :: 0 <= i < |tasks| && tasks[i].Task? ==> '>' !in tasks[i].repository) && e in edges {
      TitlesArePlain(tasks);
      PlainEdges(Titles(tasks), tasks);
      forall i, j | 0 <= i < |edges| && 0 <= j < |edges| && KeyOf(edges[i]) == KeyOf(edges[j])
        ensures edges[i] == edges[j]
      {
        PlainNamesKeepApart(edges[i], edges[j]);
      }
      assert edges[..|edges|] == edges;
      FirstOf(edges, e, |edges|);
    }
    hide Depends, PlanEdges;
  }

  // ---- which repositories are listed ----

  lemma {:induction false} LinkedKeys(base: Dag, edges: seq<Edge>, a: string)
    ensures a in LinkedAll(base, edges).dag <==> a in base || Node(LinkedAll(base, edges).dag, a) != []
    decreases |edges|
  {
    if edges != [] {
      LinkedKeys(base, edges[..|edges| - 1], a);
    }
  }

  /** Every repository of the plan has an entry, with nobody depending on it if need be; any other has one only for those
      that depend on it. */
  lemma {:induction false} PlanDagLists(repositories: seq<string>, tasks: seq<Task>, a: string)
    ensures a in PlanDag(repositories, tasks) <==> a in repositories || Node(PlanDag(repositories, tasks), a) != []
  {
    LinkedKeys(Empty(repositories), PlanEdges(Titles(tasks), tasks), a);
    hide LinkedAll, PlanEdges, Titles;
  }

  lemma {:induction false} UpstreamedKeys(dag: Dag, edges: seq<Edge>, x: string)
    requires forall i :: 0 <= i < |edges| ==> edges[i].to in dag
    ensures x in UpstreamedAll(dag, edges) <==> x in dag
    decreases |edges|
  {
    if edges != [] {
      UpstreamedKeys(dag, edges[..|edges| - 1], x);
      assert edges[|edges| - 1].to in dag;
    }
  }

  lemma {:induction false} EdgesLeadTo(titles: map<string, string>, repository: string, deps: seq<string>)
    ensures forall i :: 0 <= i < |ReplanEdgesOf(titles, repository, deps)| ==>
      ReplanEdgesOf(titles, repository, deps)[i].to == repository
    decreases |deps|
  {
    if deps != [] {
      EdgesLeadTo(titles, repository, deps[..|deps| - 1]);
    }
  }

  /** The replanned map has an entry for exactly the repositories of the tasks. */
  lemma {:induction false} ReplanDagLists(titles: map<string, string>, tasks: seq<Task>, x: string)
    ensures x in UpstreamDag(titles, tasks) <==> exists i :: 0 <= i < |tasks| && tasks[i].Task? && tasks[i].repository == x
    decreases |tasks|
  {
    if tasks != [] {
      var n := |tasks| - 1;
      var before, last := UpstreamDag(titles, tasks[..n]), tasks[n];
      ReplanDagLists(titles, tasks[..n], x);
      assert forall i :: 0 <= i < n ==> tasks[..n][i] == tasks[i];
      if last.Task? {
        EdgesLeadTo(titles, last.repository, last.dependsOn);
        UpstreamedKeys(WithNode(before, last.repository), ReplanEdgesOf(titles, last.repository, last.dependsOn), x);
      }
      hide UpstreamedAll, ReplanEdgesOf;
    }
  }
}
