/** Refinement of the recalled candidates by the dependency graph. The graph is the list of edges the scan
    built; Go iterates the map of adjacent repositories in any order, so that order is arbitrary here. */
module GraphRefine {
  import opened ScopeChain

  datatype Card = Card(id: string, name: string)
  datatype Link = Link(from: string, to: string)
  datatype Verdict = Verdict(
    repository: string, confidence: real, rationale: string, fromGraph: bool, conflict: bool, excluded: bool)

  const SUPPLEMENT_REASON := "direct dependency or dependent of a required repository"

  /** idByName: the last card of that name; a missing key reads as "". */
  function IdOf(cards: seq<Card>, name: string): string {
    if cards == [] then ""
    else if cards[|cards| - 1].name == name then cards[|cards| - 1].id
    else IdOf(cards[..|cards| - 1], name)
  }

  predicate Known(cards: seq<Card>, name: string) {
    exists i :: 0 <= i < |cards| && cards[i].name == name
  }

  /** The first card with that id; "" when there is none. */
  function NameOf(cards: seq<Card>, id: string): string {
    if cards == [] then "" else if cards[0].id == id then cards[0].name else NameOf(cards[1..], id)
  }

  function RequiredIds(cards: seq<Card>, verdicts: seq<Verdict>): set<string> {
    set i | 0 <= i < |verdicts| && verdicts[i].confidence >= REQUIRED_BAR && Known(cards, verdicts[i].repository)
      :: IdOf(cards, verdicts[i].repository)
  }

  /** Both ends of an edge are neighbours of each other. */
  predicate Touches(edges: seq<Link>, a: string, b: string) {
    Link(a, b) in edges || Link(b, a) in edges
  }

  predicate Lonely(edges: seq<Link>, a: string) {
    forall i :: 0 <= i < |edges| ==> edges[i].from != a && edges[i].to != a
  }

  predicate Adjoins(edges: seq<Link>, required: set<string>, id: string) {
    exists r :: r in required && Touches(edges, r, id)
  }

  function Flagged(v: Verdict, cards: seq<Card>, edges: seq<Link>, required: set<string>): Verdict {
    var id := IdOf(cards, v.repository);
    if id in required && Lonely(edges, id) && |required| > 1 then v.(conflict := true)
    else if id !in required && !Adjoins(edges, required, id) && v.confidence < REQUIRED_BAR then v.(excluded := true)
    else v
  }

  function FlaggedAll(verdicts: seq<Verdict>, cards: seq<Card>, edges: seq<Link>, required: set<string>)
    : seq<Verdict>
  {
    if verdicts == [] then []
    else
      FlaggedAll(verdicts[..|verdicts| - 1], cards, edges, required)
      + [Flagged(verdicts[|verdicts| - 1], cards, edges, required)]
  }

  function Repositories(verdicts: seq<Verdict>): set<string> {
    set i | 0 <= i < |verdicts| :: verdicts[i].repository
  }

  /** The names appended when the adjacent ids are visited in this order. */
  function Supplements(cards: seq<Card>, judged: set<string>, order: seq<string>): seq<string> {
    if order == [] then []
    else
      var before := Supplements(cards, judged, order[..|order| - 1]);
      var name := NameOf(cards, order[|order| - 1]);
      if name == "" || name in judged || name in before then before else before + [name]
  }

  function Supplement(name: string): Verdict {
    Verdict(name, MAYBE_BAR, SUPPLEMENT_REASON, true, false, false)
  }

  function SupplementsOf(names: seq<string>): seq<Verdict> {
    if names == [] then [] else SupplementsOf(names[..|names| - 1]) + [Supplement(names[|names| - 1])]
  }

  /** The repositories flagged as conflicts, in input order. */
  function ConflictNames(verdicts: seq<Verdict>, cards: seq<Card>, edges: seq<Link>, required: set<string>)
    : seq<string>
  {
    if verdicts == [] then []
    else
      var last := verdicts[|verdicts| - 1];
      var id := IdOf(cards, last.repository);
      ConflictNames(verdicts[..|verdicts| - 1], cards, edges, required)
      + if id in required && Lonely(edges, id) && |required| > 1 then [last.repository] else []
  }

  /** An order in which Go may visit the adjacent ids. */
  ghost predicate Visits(order: seq<string>, edges: seq<Link>, required: set<string>) {
    Distinct(order) && forall id :: id in order <==> Adjoins(edges, required, id)
  }

  function Refined(cards: seq<Card>, edges: seq<Link>, verdicts: seq<Verdict>, order: seq<string>): seq<Verdict> {
    FlaggedAll(verdicts, cards, edges, RequiredIds(cards, verdicts))
    + SupplementsOf(Supplements(cards, Repositories(verdicts), order))
  }

  // ---- graphAdjust ----

  function Near(neighbours: map<string, set<string>>, id: string): set<string> {
    if id in neighbours then neighbours[id] else {}
  }

  lemma {:induction false} KnownStep(cards: seq<Card>, i: nat, name: string)
    requires i < |cards|
    ensures Known(cards[..i + 1], name) <==> Known(cards[..i], name) || cards[i].name == name
  {
    var more := cards[..i + 1];
    assert more[i] == cards[i] && forall j :: 0 <= j < i ==> more[j] == cards[..i][j];
  }

  lemma {:induction false} TouchStep(edges: seq<Link>, i: nat, a: string, b: string)
    requires i < |edges|
    ensures Touches(edges[..i + 1], a, b) <==> Touches(edges[..i], a, b) || edges[i] == Link(a, b) || edges[i] == Link(b, a)
  {
    assert edges[..i + 1] == edges[..i] + [edges[i]];
  }

  ghost predicate IdsAre(ids: map<string, string>, cards: seq<Card>) {
    (forall name :: name in ids <==> Known(cards, name)) && forall name :: name in ids ==> ids[name] == IdOf(cards, name)
  }

  method BuildIds(cards: seq<Card>) returns (ids: map<string, string>)
    ensures IdsAre(ids, cards)
  {
    ids := map[];
    for i := 0 to |cards|
      invariant forall name :: name in ids <==> Known(cards[..i], name)
      invariant forall name :: name in ids ==> ids[name] == IdOf(cards[..i], name)
    {
      assert cards[..i + 1][..i] == cards[..i];
      forall name
        ensures Known(cards[..i + 1], name) <==> Known(cards[..i], name) || cards[i].name == name
      {
        KnownStep(cards, i, name);
      }
      ids := ids[cards[i].name := cards[i].id];
    }
    assert cards[..|cards|] == cards;
  }

  method BuildNeighbours(edges: seq<Link>) returns (neighbours: map<string, set<string>>)
    ensures forall a, b :: b in Near(neighbours, a) <==> Touches(edges, a, b)
  {
    neighbours := map[];
    for i := 0 to |edges|
      invariant forall a, b :: b in Near(neighbours, a) <==> Touches(edges[..i], a, b)
    {
      var e := edges[i];
      ghost var before := neighbours;
      if e.from !in neighbours {
        neighbours := neighbours[e.from := {}];
      }
      if e.to !in neighbours {
        neighbours := neighbours[e.to := {}];
      }
      neighbours := neighbours[e.from := neighbours[e.from] + {e.to}];
      neighbours := neighbours[e.to := neighbours[e.to] + {e.from}];
      forall a, b
        ensures b in Near(neighbours, a) <==> Touches(edges[..i + 1], a, b)
      {
        TouchStep(edges, i, a, b);
        assert b in Near(before, a) <==> Touches(edges[..i], a, b);
        assert b in Near(neighbours, a) <==> b in Near(before, a) || (a == e.from && b == e.to) || (a == e.to && b == e.from);
      }
    }
    assert edges[..|edges|] == edges;
  }

  method FindRequired(cards: seq<Card>, verdicts: seq<Verdict>, ids: map<string, string>) returns (required: set<string>)
    requires IdsAre(ids, cards)
    ensures required == RequiredIds(cards, verdicts)
  {
    required := {};
    for i := 0 to |verdicts|
      invariant required == RequiredIds(cards, verdicts[..i])
    {
      RequiredStep(cards, verdicts, i);
      if verdicts[i].confidence >= REQUIRED_BAR {
        if verdicts[i].repository in ids {
          required := required + {ids[verdicts[i].repository]};
        }
      }
    }
    assert verdicts[..|verdicts|] == verdicts;
  }

  lemma {:induction false} RequiredStep(cards: seq<Card>, verdicts: seq<Verdict>, i: nat)
    requires i < |verdicts|
    ensures RequiredIds(cards, verdicts[..i + 1]) == RequiredIds(cards, verdicts[..i])
      + if verdicts[i].confidence >= REQUIRED_BAR && Known(cards, verdicts[i].repository)
        then {IdOf(cards, verdicts[i].repository)} else {}
  {
    var more, before := verdicts[..i + 1], verdicts[..i];
    assert more == before + [verdicts[i]];
    assert forall j :: 0 <= j < i ==> more[j] == before[j];
    assert more[i] == verdicts[i];
  }

  /** The double loop over the required ids and their neighbours; the map order does not matter here. */
  method FindAdjacent(edges: seq<Link>, required: set<string>, neighbours: map<string, set<string>>)
    returns (adjacent: set<string>)
    requires forall a, b :: b in Near(neighbours, a) <==> Touches(edges, a, b)
    ensures forall id :: id in adjacent <==> Adjoins(edges, required, id)
  {
    adjacent := {};
    var rest := required;
    while rest != {}
      invariant rest <= required
      invariant forall id :: id in adjacent <==> exists r :: r in required - rest && id in Near(neighbours, r)
    {
      var r :| r in rest;
      adjacent := adjacent + Near(neighbours, r);
      assert required - (rest - {r}) == (required - rest) + {r};
      rest := rest - {r};
    }
  }

  lemma {:induction false} LonelyMeans(edges: seq<Link>, neighbours: map<string, set<string>>, a: string)
    requires forall a, b :: b in Near(neighbours, a) <==> Touches(edges, a, b)
    ensures |Near(neighbours, a)| == 0 <==> Lonely(edges, a)
  {
    if Lonely(edges, a) {
      forall b
        ensures b !in Near(neighbours, a)
      {
        assert Link(a, b) !in edges && Link(b, a) !in edges;
      }
      assert Near(neighbours, a) == {};
    } else {
      var i :| 0 <= i < |edges| && (edges[i].from == a || edges[i].to == a);
      var b := if edges[i].from == a then edges[i].to else edges[i].from;
      assert edges[i] == Link(a, b) || edges[i] == Link(b, a);
      assert b in Near(neighbours, a);
    }
  }

  /** The switch over one verdict. */
  method FlagVerdict(v: Verdict, cards: seq<Card>, edges: seq<Link>, ids: map<string, string>, required: set<string>,
                     neighbours: map<string, set<string>>, adjacent: set<string>)
    returns (flagged: Verdict, conflict: bool)
    requires IdsAre(ids, cards)
    requires forall a, b :: b in Near(neighbours, a) <==> Touches(edges, a, b)
    requires forall id :: id in adjacent <==> Adjoins(edges, required, id)
    ensures flagged == Flagged(v, cards, edges, required)
    ensures conflict <==> (var id := IdOf(cards, v.repository); id in required && Lonely(edges, id) && |required| > 1)
  {
    flagged, conflict := v, false;
    UnknownHasNoId(cards, v.repository);
    var id := if v.repository in ids then ids[v.repository] else "";
    LonelyMeans(edges, neighbours, id);
    if id in required && |Near(neighbours, id)| == 0 && |required| > 1 {
      flagged := v.(conflict := true);
      conflict := true;
    } else if id !in required && id !in adjacent && v.confidence < REQUIRED_BAR {
      flagged := v.(excluded := true);
    }
  }

  method FlagVerdicts(cards: seq<Card>, edges: seq<Link>, verdicts: seq<Verdict>, ids: map<string, string>,
                      required: set<string>, neighbours: map<string, set<string>>, adjacent: set<string>)
    returns (refined: seq<Verdict>, conflicts: seq<string>, seen: set<string>)
    requires IdsAre(ids, cards)
    requires forall a, b :: b in Near(neighbours, a) <==> Touches(edges, a, b)
    requires forall id :: id in adjacent <==> Adjoins(edges, required, id)
    ensures refined == FlaggedAll(verdicts, cards, edges, required)
    ensures conflicts == ConflictNames(verdicts, cards, edges, required)
    ensures seen == Repositories(verdicts)
  {
    refined, conflicts, seen := [], [], {};
    for i := 0 to |verdicts|
      invariant refined == FlaggedAll(verdicts[..i], cards, edges, required)
      invariant conflicts == ConflictNames(verdicts[..i], cards, edges, required)
      invariant seen == Repositories(verdicts[..i])
    {
      assert verdicts[..i + 1][..i] == verdicts[..i];
      RepositoriesStep(verdicts, i);
      var verdict, conflict := FlagVerdict(verdicts[i], cards, edges, ids, required, neighbours, adjacent);
      if conflict {
        conflicts := conflicts + [verdict.repository];
      }
      seen := seen + {verdict.repository};
      refined := refined + [verdict];
    }
    assert verdicts[..|verdicts|] == verdicts;
  }

  lemma {:induction false} UnknownHasNoId(cards: seq<Card>, name: string)
    ensures !Known(cards, name) ==> IdOf(cards, name) == ""
    decreases |cards|
  {
    if cards != [] {
      UnknownHasNoId(cards[..|cards| - 1], name);
      KnownStep(cards, |cards| - 1, name);
      assert cards[..|cards|] == cards;
    }
  }

  lemma {:induction false} RepositoriesStep(verdicts: seq<Verdict>, i: nat)
    requires i < |verdicts|
    ensures Repositories(verdicts[..i + 1]) == Repositories(verdicts[..i]) + {verdicts[i].repository}
  {
    var more, before := verdicts[..i + 1], verdicts[..i];
    assert more[i] == verdicts[i] && forall j :: 0 <= j < i ==> more[j] == before[j];
  }

  method FindName(cards: seq<Card>, id: string) returns (name: string)
    ensures name == NameOf(cards, id)
  {
    for i := 0 to |cards|
      invariant NameOf(cards, id) == NameOf(cards[i..], id)
    {
      assert cards[i..][1..] == cards[i + 1..];
      if cards[i].id == id {
        return cards[i].name;
      }
    }
    return "";
  }

  ghost predicate Adjusted(cards: seq<Card>, edges: seq<Link>, verdicts: seq<Verdict>, refined: seq<Verdict>,
                           supplements: seq<string>, order: seq<string>) {
    Visits(order, edges, RequiredIds(cards, verdicts))
    && refined == Refined(cards, edges, verdicts, order)
    && supplements == Supplements(cards, Repositories(verdicts), order)
  }

  /** graphAdjust, for some visiting order. The names of the supplements and of the conflicts come out unsorted. */
  method GraphAdjust(cards: seq<Card>, edges: seq<Link>, verdicts: seq<Verdict>)
    returns (refined: seq<Verdict>, supplements: seq<string>, conflicts: seq<string>)
    ensures exists order :: Adjusted(cards, edges, verdicts, refined, supplements, order)
    ensures conflicts == ConflictNames(verdicts, cards, edges, RequiredIds(cards, verdicts))
  {
    if |verdicts| == 0 {
      assert Adjusted(cards, edges, verdicts, verdicts, [], []);
      return verdicts, [], [];
    }
    var ids := BuildIds(cards);
    var required := FindRequired(cards, verdicts, ids);
    var neighbours := BuildNeighbours(edges);
    var adjacent := FindAdjacent(edges, required, neighbours);
    var seen: set<string>;
    refined, conflicts, seen := FlagVerdicts(cards, edges, verdicts, ids, required, neighbours, adjacent);
    ghost var flagged := refined;
    refined, supplements := AddSupplements(cards, adjacent, seen, refined);
    ghost var order :| Added(cards, adjacent, seen, supplements, order);
    assert Adjusted(cards, edges, verdicts, refined, supplements, order);
  }

  ghost predicate Added(cards: seq<Card>, adjacent: set<string>, judged: set<string>, supplements: seq<string>, order: seq<string>) {
    Distinct(order) && (forall id :: id in order <==> id in adjacent) && supplements == Supplements(cards, judged, order)
  }

  /** The loop over the map of adjacent ids, in whatever order Go picks. */
  method AddSupplements(cards: seq<Card>, adjacent: set<string>, judged: set<string>, flagged: seq<Verdict>)
    returns (refined: seq<Verdict>, supplements: seq<string>)
    ensures exists order :: Added(cards, adjacent, judged, supplements, order)
    ensures refined == flagged + SupplementsOf(supplements)
  {
    refined, supplements := flagged, [];
    var seen, rest := judged, adjacent;
    ghost var order: seq<string> := [];
    while rest != {}
      invariant rest <= adjacent && Added(cards, adjacent - rest, judged, supplements, order)
      invariant forall name :: name in seen <==> name in judged || name in supplements
      invariant refined == flagged + SupplementsOf(supplements)
    {
      var id :| id in rest;
      rest := rest - {id};
      VisitStep(cards, judged, order, id);
      order := order + [id];
      var name := FindName(cards, id);
      if name == "" || name in seen {
        continue;
      }
      SupplementStep(flagged, supplements, name);
      refined := refined + [Supplement(name)];
      supplements := supplements + [name];
      seen := seen + {name};
    }
    assert adjacent - rest == adjacent;
  }

  lemma {:induction false} VisitStep(cards: seq<Card>, judged: set<string>, order: seq<string>, id: string)
    requires Distinct(order) && id !in order
    ensures Distinct(order + [id])
    ensures var before, name := Supplements(cards, judged, order), NameOf(cards, id);
      Supplements(cards, judged, order + [id])
        == if name == "" || name in judged || name in before then before else before + [name]
  {
    assert (order + [id])[..|order|] == order;
  }

  lemma {:induction false} SupplementStep(flagged: seq<Verdict>, names: seq<string>, name: string)
    ensures flagged + SupplementsOf(names + [name]) == (flagged + SupplementsOf(names)) + [Supplement(name)]
  {
    assert (names + [name])[..|names|] == names;
  }

  // ---- what comes out ----

  predicate NamedIn(cards: seq<Card>, order: seq<string>, name: string) {
    exists i :: 0 <= i < |order| && NameOf(cards, order[i]) == name
  }

  lemma {:induction false} NamedStep(cards: seq<Card>, order: seq<string>, name: string)
    requires order != []
    ensures NamedIn(cards, order, name)
      <==> NamedIn(cards, order[..|order| - 1], name) || NameOf(cards, order[|order| - 1]) == name
  {
    assert forall i :: 0 <= i < |order| - 1 ==> order[..|order| - 1][i] == order[i];
  }

  lemma {:induction false} SupplementsMean(cards: seq<Card>, judged: set<string>, order: seq<string>, name: string)
    ensures name in Supplements(cards, judged, order) <==> name != "" && name !in judged && NamedIn(cards, order, name)
    decreases |order|
  {
    if order != [] {
      SupplementsMean(cards, judged, order[..|order| - 1], name);
      NamedStep(cards, order, name);
    }
  }

  lemma {:induction false} SupplementsDistinct(cards: seq<Card>, judged: set<string>, order: seq<string>)
    ensures Distinct(Supplements(cards, judged, order))
    decreases |order|
  {
    if order != [] {
      SupplementsDistinct(cards, judged, order[..|order| - 1]);
    }
  }

  /** A card's name no verdict mentions, adjacent to a required repository. */
  ghost predicate MissingNeighbour(cards: seq<Card>, edges: seq<Link>, verdicts: seq<Verdict>, name: string) {
    name != "" && name !in Repositories(verdicts)
    && exists id :: Adjoins(edges, RequiredIds(cards, verdicts), id) && NameOf(cards, id) == name
  }

  /** Whatever the order, every missing neighbour is appended exactly once, and nothing else is. */
  lemma {:induction false} MissingNeighboursOnce(cards: seq<Card>, edges: seq<Link>, verdicts: seq<Verdict>,
                                                 order: seq<string>, name: string)
    requires Visits(order, edges, RequiredIds(cards, verdicts))
    ensures Distinct(Supplements(cards, Repositories(verdicts), order))
    ensures name in Supplements(cards, Repositories(verdicts), order) <==> MissingNeighbour(cards, edges, verdicts, name)
  {
    SupplementsDistinct(cards, Repositories(verdicts), order);
    SupplementsMean(cards, Repositories(verdicts), order, name);
    var required := RequiredIds(cards, verdicts);
    assert forall i :: 0 <= i < |order| ==> Adjoins(edges, required, order[i]);
    if exists id :: Adjoins(edges, required, id) && NameOf(cards, id) == name {
      var id :| Adjoins(edges, required, id) && NameOf(cards, id) == name;
      assert id in order;
    }
  }

  /** The verdicts come out in their order, changed in at most one flag. */
  lemma {:induction false} VerdictsKept(cards: seq<Card>, edges: seq<Link>, verdicts: seq<Verdict>, order: seq<string>, i: nat)
    requires i < |verdicts|
    ensures |Refined(cards, edges, verdicts, order)| == |verdicts| + |Supplements(cards, Repositories(verdicts), order)|
    ensures var v, w := verdicts[i], Refined(cards, edges, verdicts, order)[i];
      w == v || w == v.(conflict := true) || (w == v.(excluded := true) && v.confidence < REQUIRED_BAR)
    ensures Refined(cards, edges, verdicts, order)[i] == Flagged(verdicts[i], cards, edges, RequiredIds(cards, verdicts))
  {
    FlaggedAt(verdicts, cards, edges, RequiredIds(cards, verdicts), i);
    SupplementsLength(Supplements(cards, Repositories(verdicts), order));
  }

  lemma {:induction false} FlaggedAt(verdicts: seq<Verdict>, cards: seq<Card>, edges: seq<Link>, required: set<string>, i: nat)
    requires i < |verdicts|
    ensures |FlaggedAll(verdicts, cards, edges, required)| == |verdicts|
    ensures FlaggedAll(verdicts, cards, edges, required)[i] == Flagged(verdicts[i], cards, edges, required)
    decreases |verdicts|
  {
    var n := |verdicts| - 1;
    if n > 0 {
      FlaggedAt(verdicts[..n], cards, edges, required, if i < n then i else 0);
    }
  }

  lemma {:induction false} SupplementsLength(names: seq<string>)
    ensures |SupplementsOf(names)| == |names|
    decreases |names|
  {
    if names != [] {
      SupplementsLength(names[..|names| - 1]);
    }
  }

  /** The card a name stands for: the last one with it. */
  predicate StandsFor(cards: seq<Card>, name: string, j: int) {
    0 <= j < |cards| && cards[j].name == name && forall k :: j < k < |cards| ==> cards[k].name != name
  }

  lemma {:induction false} IdMeans(cards: seq<Card>, name: string, j: int)
    ensures StandsFor(cards, name, j) ==> IdOf(cards, name) == cards[j].id
    ensures (forall k :: 0 <= k < |cards| ==> cards[k].name != name) ==> IdOf(cards, name) == ""
    decreases |cards|
  {
    if cards != [] {
      IdMeans(cards[..|cards| - 1], name, j);
    }
  }

  /** The name an id is given back under: that of the first card with it. */
  lemma {:induction false} NameMeans(cards: seq<Card>, id: string, j: nat)
    requires j <= |cards| && forall k :: 0 <= k < j ==> cards[k].id != id
    ensures j < |cards| && cards[j].id == id ==> NameOf(cards, id) == cards[j].name
    ensures j == |cards| ==> NameOf(cards, id) == ""
    decreases |cards|
  {
    if j > 0 {
      NameMeans(cards[1..], id, j - 1);
    }
  }

  /** The required ids are those of the known names judged at 0.7 or more. */
  ghost predicate IsRequired(cards: seq<Card>, verdicts: seq<Verdict>, id: string) {
    exists i, j :: 0 <= i < |verdicts| && StandsFor(cards, verdicts[i].repository, j)
                   && verdicts[i].confidence >= 0.7 && cards[j].id == id
  }

  lemma {:induction false} LastOf(cards: seq<Card>, name: string) returns (j: int)
    requires Known(cards, name)
    ensures StandsFor(cards, name, j)
    decreases |cards|
  {
    var n := |cards| - 1;
    if cards[n].name == name {
      j := n;
    } else {
      var i :| 0 <= i < |cards| && cards[i].name == name;
      assert cards[..n][i].name == name;
      j := LastOf(cards[..n], name);
    }
  }

  lemma {:induction false} RequiredMeans(cards: seq<Card>, verdicts: seq<Verdict>, id: string)
    ensures id in RequiredIds(cards, verdicts) <==> IsRequired(cards, verdicts, id)
  {
    if id in RequiredIds(cards, verdicts) {
      var i :| 0 <= i < |verdicts| && verdicts[i].confidence >= REQUIRED_BAR && Known(cards, verdicts[i].repository)
               && IdOf(cards, verdicts[i].repository) == id;
      var j := LastOf(cards, verdicts[i].repository);
      IdMeans(cards, verdicts[i].repository, j);
    }
    if i, j :| 0 <= i < |verdicts| && StandsFor(cards, verdicts[i].repository, j)
               && verdicts[i].confidence >= 0.7 && cards[j].id == id {
      IdMeans(cards, verdicts[i].repository, j);
      assert Known(cards, verdicts[i].repository);
    }
  }

  /** A verdict is a conflict exactly when it is of a required repository no edge touches while others are required too,
      and excluded exactly when it is of one that is not required, has no edge to a required one and a score below 0.7. */
  lemma {:induction false} FlagsMean(cards: seq<Card>, edges: seq<Link>, verdicts: seq<Verdict>, order: seq<string>, i: nat)
    requires i < |verdicts|
    ensures |Refined(cards, edges, verdicts, order)| >= |verdicts|
    ensures var v, w, required := verdicts[i], Refined(cards, edges, verdicts, order)[i], RequiredIds(cards, verdicts);
      var id := IdOf(cards, v.repository);
      && (w.conflict <==>
            (v.conflict || (id in required && |required| > 1 && forall e :: e in edges ==> e.from != id && e.to != id)))
      && (w.excluded <==>
            (v.excluded || (id !in required && v.confidence < 0.7
                            && forall r :: r in required ==> Link(r, id) !in edges && Link(id, r) !in edges)))
      && w == v.(conflict := w.conflict, excluded := w.excluded)
  {
    var required, id := RequiredIds(cards, verdicts), IdOf(cards, verdicts[i].repository);
    VerdictsKept(cards, edges, verdicts, order, i);
    assert Lonely(edges, id) <==> forall e :: e in edges ==> e.from != id && e.to != id;
    hide Refined, RequiredIds, IdOf, Lonely;
  }

  /** Behind them come the missing neighbours as supplements from the graph, at 0.4 and without a flag. */
  lemma {:induction false} SupplementsAre(cards: seq<Card>, edges: seq<Link>, verdicts: seq<Verdict>, order: seq<string>, k: nat)
    requires k < |Supplements(cards, Repositories(verdicts), order)|
    ensures var w := Refined(cards, edges, verdicts, order); var names := Supplements(cards, Repositories(verdicts), order);
      |w| == |verdicts| + |names| && w[|verdicts| + k] == Verdict(names[k], 0.4, SUPPLEMENT_REASON, true, false, false)
  {
    var names := Supplements(cards, Repositories(verdicts), order);
    SupplementsLength(names);
    if verdicts != [] {
      FlaggedAt(verdicts, cards, edges, RequiredIds(cards, verdicts), 0);
    }
    SupplementAt(names, k);
    hide Supplements, RequiredIds;
  }

  lemma {:induction false} SupplementAt(names: seq<string>, k: nat)
    requires k < |names|
    ensures |SupplementsOf(names)| == |names| && SupplementsOf(names)[k] == Supplement(names[k])
    decreases |names|
  {
    var n := |names| - 1;
    SupplementsLength(names[..n]);
    if k < n {
      SupplementAt(names[..n], k);
    }
  }

  /** The conflicts reported are the names of the verdicts that are one, in their order. */
  predicate Conflicting(cards: seq<Card>, edges: seq<Link>, required: set<string>, v: Verdict) {
    var id := IdOf(cards, v.repository);
    id in required && |required| > 1 && forall e :: e in edges ==> e.from != id && e.to != id
  }

  lemma {:induction false} ConflictsMean(cards: seq<Card>, edges: seq<Link>, required: set<string>, verdicts: seq<Verdict>,
                                         v: Verdict)
    ensures ConflictNames(verdicts + [v], cards, edges, required) == ConflictNames(verdicts, cards, edges, required)
      + if Conflicting(cards, edges, required, v) then [v.repository] else []
    ensures ConflictNames([], cards, edges, required) == []
  {
    var id := IdOf(cards, v.repository);
    assert (verdicts + [v])[..|verdicts|] == verdicts;
    assert Lonely(edges, id) <==> forall e :: e in edges ==> e.from != id && e.to != id;
  }

  // ---- more edges ----

  predicate Within(edges: seq<Link>, more: seq<Link>) {
    forall e :: e in edges ==> e in more
  }

  lemma {:induction false} AdjoinsGrows(edges: seq<Link>, more: seq<Link>, required: set<string>, id: string)
    requires Within(edges, more) && Adjoins(edges, required, id)
    ensures Adjoins(more, required, id)
  {
    var r :| r in required && Touches(edges, r, id);
    assert Touches(more, r, id);
  }

  lemma {:induction false} LonelyShrinks(edges: seq<Link>, more: seq<Link>, id: string)
    requires Within(edges, more) && Lonely(more, id)
    ensures Lonely(edges, id)
  {
    forall i | 0 <= i < |edges|
      ensures edges[i].from != id && edges[i].to != id
    {
      assert edges[i] in edges;
      var j :| 0 <= j < |more| && more[j] == edges[i];
    }
  }

  /** More edges never add an exclusion or a conflict and never take a supplement away. */
  lemma {:induction false} MoreEdgesOnlyHelp(cards: seq<Card>, edges: seq<Link>, more: seq<Link>, verdicts: seq<Verdict>,
                                             order: seq<string>, order': seq<string>, i: nat, name: string)
    requires Within(edges, more) && i < |verdicts|
    requires Visits(order, edges, RequiredIds(cards, verdicts)) && Visits(order', more, RequiredIds(cards, verdicts))
    ensures |Refined(cards, edges, verdicts, order)| >= |verdicts| && |Refined(cards, more, verdicts, order')| >= |verdicts|
    ensures Refined(cards, more, verdicts, order')[i].excluded ==> Refined(cards, edges, verdicts, order)[i].excluded
    ensures Refined(cards, more, verdicts, order')[i].conflict ==> Refined(cards, edges, verdicts, order)[i].conflict
    ensures name in Supplements(cards, Repositories(verdicts), order)
      ==> name in Supplements(cards, Repositories(verdicts), order')
  {
    VerdictsKept(cards, edges, verdicts, order, i);
    VerdictsKept(cards, more, verdicts, order', i);
    FlagsShrink(cards, edges, more, verdicts[i], RequiredIds(cards, verdicts));
    SupplementsGrow(cards, edges, more, verdicts, order, order', name);
  }

  lemma {:induction false} FlagsShrink(cards: seq<Card>, edges: seq<Link>, more: seq<Link>, v: Verdict, required: set<string>)
    requires Within(edges, more)
    ensures Flagged(v, cards, more, required).excluded ==> Flagged(v, cards, edges, required).excluded
    ensures Flagged(v, cards, more, required).conflict ==> Flagged(v, cards, edges, required).conflict
  {
    var id := IdOf(cards, v.repository);
    if Lonely(more, id) {
      LonelyShrinks(edges, more, id);
    }
    if Adjoins(edges, required, id) {
      AdjoinsGrows(edges, more, required, id);
    }
  }

  lemma {:induction false} SupplementsGrow(cards: seq<Card>, edges: seq<Link>, more: seq<Link>, verdicts: seq<Verdict>,
                                           order: seq<string>, order': seq<string>, name: string)
    requires Within(edges, more)
    requires Visits(order, edges, RequiredIds(cards, verdicts)) && Visits(order', more, RequiredIds(cards, verdicts))
    ensures name in Supplements(cards, Repositories(verdicts), order)
      ==> name in Supplements(cards, Repositories(verdicts), order')
  {
    var required := RequiredIds(cards, verdicts);
    MissingNeighboursOnce(cards, edges, verdicts, order, name);
    MissingNeighboursOnce(cards, more, verdicts, order', name);
    if MissingNeighbour(cards, edges, verdicts, name) {
      var id :| Adjoins(edges, required, id) && NameOf(cards, id) == name;
      AdjoinsGrows(edges, more, required, id);
    }
  }
}
