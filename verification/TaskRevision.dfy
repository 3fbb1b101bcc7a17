/** Revision of a plan's tasks: a full snapshot of the new task set is matched against the rows of the plan,
    by uid and then by repository and title. Matched rows go on in place, the others are superseded. */
module TaskRevision {
  import opened Text

  datatype Snapshot = Snapshot(uid: string, repository: string, title: string, instruction: string, acceptance: string)

  // The index of a row in the table is its id; rows are never deleted.
  datatype Row = Row(task: Snapshot, superseded: bool)

  /** The fallback key: both names in one string. */
  function KeyOf(t: Snapshot): string {
    t.repository + ("\U{1F}" + t.title)
  }

  // ---- the gate ----

  /** The snapshot has a repository, and nothing before it could be taken for it: not by its uid, and without a
      uid not by repository and title. */
  predicate Fits(tasks: seq<Snapshot>, i: nat)
    requires i < |tasks|
  {
    && tasks[i].repository != ""
    && (tasks[i].uid != "" ==> forall k :: 0 <= k < i ==> tasks[k].uid != tasks[i].uid)
    && (tasks[i].uid == "" ==> forall k :: 0 <= k < i ==> KeyOf(tasks[k]) != KeyOf(tasks[i]))
  }

  /** validateTaskSnapshots. */
  predicate ValidSnapshots(tasks: seq<Snapshot>) {
    forall i :: 0 <= i < |tasks| ==> Fits(tasks, i)
  }

  predicate UidsDiffer(tasks: seq<Snapshot>) {
    forall i, k :: 0 <= k < i < |tasks| && tasks[i].uid != "" ==> tasks[k].uid != tasks[i].uid
  }

  lemma {:induction false} ValidUidsDiffer(tasks: seq<Snapshot>)
    requires ValidSnapshots(tasks)
    ensures UidsDiffer(tasks)
  {
    forall i, k | 0 <= k < i < |tasks| && tasks[i].uid != ""
      ensures tasks[k].uid != tasks[i].uid
    {
      assert Fits(tasks, i);
    }
  }

  method ValidateTaskSnapshots(tasks: seq<Snapshot>) returns (valid: bool)
    ensures valid <==> ValidSnapshots(tasks)
  {
    var uids: set<string>, keys: set<string> := {}, {};
    for i := 0 to |tasks|
      invariant forall k :: 0 <= k < i ==> Fits(tasks, k)
      invariant forall u :: u in uids <==> u != "" && exists k :: 0 <= k < i && tasks[k].uid == u
      invariant forall x :: x in keys <==> exists k :: 0 <= k < i && KeyOf(tasks[k]) == x
    {
      var t := tasks[i];
      if t.repository == "" {
        assert !Fits(tasks, i);
        return false;
      }
      if t.uid != "" {
        if t.uid in uids {
          assert !Fits(tasks, i);
          return false;
        }
        uids := uids + {t.uid};
      }
      if t.uid == "" && KeyOf(t) in keys {
        assert !Fits(tasks, i);
        return false;
      }
      keys := keys + {KeyOf(t)};
    }
    return true;
  }

  // ---- matching ----

  predicate Within(rows: seq<Row>, order: seq<nat>) {
    forall k :: 0 <= k < |order| ==> order[k] < |rows|
  }

  /** The live rows, each once, in whatever order the query returns them. */
  ghost predicate Lists(rows: seq<Row>, order: seq<nat>) {
    && Within(rows, order)
    && (forall i, k :: 0 <= k < i < |order| ==> order[k] != order[i])
    && (forall i :: i in order <==> 0 <= i < |rows| && !rows[i].superseded)
  }

  /** The last listed row with this uid: the map is overwritten. */
  function ByUid(rows: seq<Row>, order: seq<nat>, uid: string): (r: Option<nat>)
    requires Within(rows, order)
    ensures r.Some? ==> r.value in order && r.value < |rows| && rows[r.value].task.uid == uid
    ensures r.None? ==> forall i :: i in order ==> rows[i].task.uid != uid
  {
    if order == [] then None
    else
      var n := |order| - 1;
      if rows[order[n]].task.uid == uid then Some(order[n]) else ByUid(rows, order[..n], uid)
  }

  function ByKey(rows: seq<Row>, order: seq<nat>, key: string): (r: Option<nat>)
    requires Within(rows, order)
    ensures r.Some? ==> r.value in order && r.value < |rows| && KeyOf(rows[r.value].task) == key
    ensures r.None? ==> forall i :: i in order ==> KeyOf(rows[i].task) != key
  {
    if order == [] then None
    else
      var n := |order| - 1;
      if KeyOf(rows[order[n]].task) == key then Some(order[n]) else ByKey(rows, order[..n], key)
  }

  function Match(rows: seq<Row>, order: seq<nat>, t: Snapshot): (r: Option<nat>)
    requires Within(rows, order)
    ensures r.Some? ==> r.value in order && r.value < |rows|
  {
    if t.uid != "" && ByUid(rows, order, t.uid).Some? then ByUid(rows, order, t.uid) else ByKey(rows, order, KeyOf(t))
  }

  // ---- the migration ----

  // `at` is where each snapshot has landed.
  datatype Landing = Landing(rows: seq<Row>, at: seq<nat>)

  /** One snapshot: its match goes on with the new content, or a row is inserted. */
  function Land(rows: seq<Row>, order: seq<nat>, l: Landing, t: Snapshot): Landing
    requires Within(rows, order) && |rows| <= |l.rows|
  {
    var m := Match(rows, order, t);
    if m.None? || m.value in l.at then Landing(l.rows + [Row(t, false)], l.at + [|l.rows|])
    else Landing(l.rows[m.value := Row(t, false)], l.at + [m.value])
  }

  function Landed(rows: seq<Row>, order: seq<nat>, tasks: seq<Snapshot>): (l: Landing)
    requires Within(rows, order)
    ensures |rows| <= |l.rows| && |l.at| == |tasks|
  {
    if tasks == [] then Landing(rows, [])
    else Land(rows, order, Landed(rows, order, tasks[..|tasks| - 1]), tasks[|tasks| - 1])
  }

  function Retired(l: Landing, order: seq<nat>): seq<Row> {
    seq(|l.rows|, i requires 0 <= i < |l.rows| =>
      if i in order && i !in l.at then l.rows[i].(superseded := true) else l.rows[i])
  }

  /** The plan's rows after migrateTasksTx. */
  function Migrated(rows: seq<Row>, order: seq<nat>, tasks: seq<Snapshot>): seq<Row>
    requires Within(rows, order)
  {
    Retired(Landed(rows, order, tasks), order)
  }

  // ---- what the landing means ----

  predicate DistinctAt(at: seq<nat>) {
    forall j, k :: 0 <= k < j < |at| ==> at[k] != at[j]
  }

  /** Every snapshot has one row of its own with exactly its content. */
  predicate EachHasARow(rows: seq<Row>, at: seq<nat>, tasks: seq<Snapshot>) {
    && |at| == |tasks| && DistinctAt(at)
    && forall j :: 0 <= j < |at| ==> at[j] < |rows| && rows[at[j]] == Row(tasks[j], false)
  }

  /** Old rows are where they were unless a snapshot landed on them; new ones were inserted for a snapshot. */
  predicate OthersUntouched(rows: seq<Row>, order: seq<nat>, l: Landing) {
    && |rows| <= |l.rows|
    && (forall i :: 0 <= i < |rows| && i !in l.at ==> l.rows[i] == rows[i])
    && (forall i :: |rows| <= i < |l.rows| ==> i in l.at)
    && (forall j :: 0 <= j < |l.at| && l.at[j] < |rows| ==> l.at[j] in order)
  }

  lemma {:induction false} InsertKeeps(rows: seq<Row>, order: seq<nat>, l: Landing, tasks: seq<Snapshot>, t: Snapshot)
    requires EachHasARow(l.rows, l.at, tasks) && OthersUntouched(rows, order, l)
    ensures var l' := Landing(l.rows + [Row(t, false)], l.at + [|l.rows|]);
      EachHasARow(l'.rows, l'.at, tasks + [t]) && OthersUntouched(rows, order, l')
  {
    var at := l.at + [|l.rows|];
    AtGrows(l.at, |l.rows|);
    assert at[|l.at|] == |l.rows|;
  }

  lemma {:induction false} UpdateKeeps(rows: seq<Row>, order: seq<nat>, l: Landing, tasks: seq<Snapshot>, t: Snapshot, m: nat)
    requires EachHasARow(l.rows, l.at, tasks) && OthersUntouched(rows, order, l)
    requires m < |rows| && m in order && m !in l.at
    ensures var l' := Landing(l.rows[m := Row(t, false)], l.at + [m]);
      EachHasARow(l'.rows, l'.at, tasks + [t]) && OthersUntouched(rows, order, l')
  {
    var at := l.at + [m];
    AtGrows(l.at, m);
    assert forall j :: 0 <= j < |l.at| ==> l.at[j] in l.at;
    assert at[|l.at|] == m;
  }

  lemma {:induction false} AtGrows(at: seq<nat>, m: nat)
    ensures forall i :: i in at + [m] <==> i in at || i == m
  {
  }

  lemma {:induction false} LandKeeps(rows: seq<Row>, order: seq<nat>, l: Landing, tasks: seq<Snapshot>, t: Snapshot)
    requires Within(rows, order) && EachHasARow(l.rows, l.at, tasks) && OthersUntouched(rows, order, l)
    ensures EachHasARow(Land(rows, order, l, t).rows, Land(rows, order, l, t).at, tasks + [t])
    ensures OthersUntouched(rows, order, Land(rows, order, l, t))
  {
    InsertKeeps(rows, order, l, tasks, t);
    var m := Match(rows, order, t);
    if m.Some? && m.value !in l.at {
      UpdateKeeps(rows, order, l, tasks, t, m.value);
    }
    hide Match, EachHasARow, OthersUntouched;
  }

  lemma {:induction false} LandedIsSound(rows: seq<Row>, order: seq<nat>, tasks: seq<Snapshot>)
    requires Within(rows, order)
    ensures var l := Landed(rows, order, tasks);
      EachHasARow(l.rows, l.at, tasks) && OthersUntouched(rows, order, l)
    decreases |tasks|
  {
    if tasks != [] {
      var n := |tasks| - 1;
      LandedIsSound(rows, order, tasks[..n]);
      LandKeeps(rows, order, Landed(rows, order, tasks[..n]), tasks[..n], tasks[n]);
      assert tasks[..n] + [tasks[n]] == tasks;
      hide Land, EachHasARow, OthersUntouched;
    }
  }

  /** The live rows are the snapshots, one row each. */
  ghost predicate LiveRowsAre(rows: seq<Row>, at: seq<nat>, tasks: seq<Snapshot>) {
    EachHasARow(rows, at, tasks) && forall i :: 0 <= i < |rows| && !rows[i].superseded ==> i in at
  }

  /** After the migration the live rows of the plan are exactly the snapshots, one row each; no row is lost, and a
      row that was superseded before is as it was. */
  lemma {:induction false} MigrationIsExact(rows: seq<Row>, order: seq<nat>, tasks: seq<Snapshot>)
    requires Lists(rows, order)
    ensures LiveRowsAre(Migrated(rows, order, tasks), Landed(rows, order, tasks).at, tasks)
    ensures |rows| <= |Migrated(rows, order, tasks)|
    ensures forall i :: 0 <= i < |rows| && rows[i].superseded ==> Migrated(rows, order, tasks)[i] == rows[i]
  {
    LandedIsSound(rows, order, tasks);
    var l := Landed(rows, order, tasks);
    assert forall j :: 0 <= j < |l.at| ==> l.at[j] in l.at;
    forall i | 0 <= i < |rows| && rows[i].superseded
      ensures Migrated(rows, order, tasks)[i] == rows[i]
    {
      assert i !in order;
    }
  }

  // ---- the unique index on uids ----

  /** uq_tasks_task_uid, within the plan. */
  predicate UidsUnique(rows: seq<Row>) {
    forall i, k :: 0 <= k < i < |rows| && !rows[i].superseded && !rows[k].superseded && rows[i].task.uid != ""
      ==> rows[k].task.uid != rows[i].task.uid
  }

  /** A row with the uid of a snapshot is taken by that snapshot or was taken by an earlier one. */
  lemma {:induction false} UidIsTaken(rows: seq<Row>, order: seq<nat>, tasks: seq<Snapshot>, j: nat, i: nat)
    requires Lists(rows, order) && UidsUnique(rows) && j < |tasks|
    requires tasks[j].uid != "" && i in order && i < |rows| && rows[i].task.uid == tasks[j].uid
    ensures i in Landed(rows, order, tasks).at
    decreases |tasks|
  {
    var n := |tasks| - 1;
    if j == n {
      MatchIsUnique(rows, order, tasks[j], i);
    } else {
      UidIsTaken(rows, order, tasks[..n], j, i);
    }
  }

  lemma {:induction false} MatchIsUnique(rows: seq<Row>, order: seq<nat>, t: Snapshot, i: nat)
    requires Lists(rows, order) && UidsUnique(rows) && t.uid != "" && i in order && i < |rows| && rows[i].task.uid == t.uid
    ensures Match(rows, order, t) == Some(i)
  {
    var m := ByUid(rows, order, t.uid).value;
    assert m in order && rows[m].task.uid == t.uid;
  }

  /** No statement of the migration runs into the index on the plan's own rows, in whatever order the snapshots
      come: after each of them the uids are unique. */
  lemma {:induction false} IndexNeverFires(rows: seq<Row>, order: seq<nat>, tasks: seq<Snapshot>, n: nat)
    requires Lists(rows, order) && UidsUnique(rows) && UidsDiffer(tasks) && n <= |tasks|
    ensures UidsUnique(Landed(rows, order, tasks[..n]).rows) && UidsUnique(Migrated(rows, order, tasks))
  {
    LandedIsUnique(rows, order, tasks[..n]);
    LandedIsUnique(rows, order, tasks);
  }

  lemma {:induction false} LandedIsUnique(rows: seq<Row>, order: seq<nat>, tasks: seq<Snapshot>)
    requires Lists(rows, order) && UidsUnique(rows) && UidsDiffer(tasks)
    ensures UidsUnique(Landed(rows, order, tasks).rows)
  {
    var l := Landed(rows, order, tasks);
    LandedIsSound(rows, order, tasks);
    forall i, k | 0 <= k < i < |l.rows| && !l.rows[i].superseded && !l.rows[k].superseded && l.rows[i].task.uid != ""
      ensures l.rows[k].task.uid != l.rows[i].task.uid
    {
      UidsApart(rows, order, tasks, i, k);
    }
  }

  lemma {:induction false} UidsApart(rows: seq<Row>, order: seq<nat>, tasks: seq<Snapshot>, i: nat, k: nat)
    requires Lists(rows, order) && UidsUnique(rows) && UidsDiffer(tasks)
    requires var l := Landed(rows, order, tasks);
      i < |l.rows| && k < |l.rows| && i != k && !l.rows[i].superseded && !l.rows[k].superseded && l.rows[i].task.uid != ""
    ensures var l := Landed(rows, order, tasks); l.rows[k].task.uid != l.rows[i].task.uid
  {
    var l := Landed(rows, order, tasks);
    LandedIsSound(rows, order, tasks);
    if i in l.at && k in l.at {
      var a, b :| 0 <= a < |l.at| && 0 <= b < |l.at| && l.at[a] == i && l.at[b] == k;
    } else if i in l.at && l.rows[k].task.uid == l.rows[i].task.uid {
      var a :| 0 <= a < |l.at| && l.at[a] == i;
      UidIsTaken(rows, order, tasks, a, k);
    } else if k in l.at && l.rows[k].task.uid == l.rows[i].task.uid {
      var b :| 0 <= b < |l.at| && l.at[b] == k;
      UidIsTaken(rows, order, tasks, b, i);
    }
  }

  // ---- identity ----

  /** A snapshot without a row of its own uid that names this row by repository and title. */
  predicate NamesRow(rows: seq<Row>, order: seq<nat>, t: Snapshot, i: nat)
    requires Within(rows, order)
  {
    (t.uid == "" || ByUid(rows, order, t.uid).None?) && ByKey(rows, order, KeyOf(t)) == Some(i)
  }

  predicate TakenByName(rows: seq<Row>, order: seq<nat>, tasks: seq<Snapshot>, i: nat)
    requires Within(rows, order)
  {
    exists k :: 0 <= k < |tasks| && NamesRow(rows, order, tasks[k], i)
  }

  lemma {:induction false} LandTakes(rows: seq<Row>, order: seq<nat>, l: Landing, t: Snapshot, i: nat)
    requires Within(rows, order) && |rows| <= |l.rows| && i < |rows|
    ensures i in Land(rows, order, l, t).at <==> i in l.at || Match(rows, order, t) == Some(i)
  {
    hide Match;
    var l' := Land(rows, order, l, t);
    assert l'.at == l.at + [l'.at[|l.at|]];
  }

  lemma {:induction false} LandPlace(rows: seq<Row>, order: seq<nat>, l: Landing, t: Snapshot, i: nat)
    requires Within(rows, order) && |rows| <= |l.rows| && i < |rows|
    ensures Land(rows, order, l, t).at[|l.at|] == i <==> i !in l.at && Match(rows, order, t) == Some(i)
  {
    hide Match;
  }

  lemma {:induction false} MatchByName(rows: seq<Row>, order: seq<nat>, t: Snapshot, i: nat)
    requires Within(rows, order) && i < |rows| && t.uid != rows[i].task.uid
    ensures Match(rows, order, t) == Some(i) <==> NamesRow(rows, order, t, i)
  {
  }

  lemma {:induction false} TakenStep(rows: seq<Row>, order: seq<nat>, tasks: seq<Snapshot>, t: Snapshot, i: nat)
    requires Within(rows, order)
    ensures TakenByName(rows, order, tasks + [t], i) <==> TakenByName(rows, order, tasks, i) || NamesRow(rows, order, t, i)
  {
    hide NamesRow;
    var more := tasks + [t];
    assert more[|tasks|] == t && forall k :: 0 <= k < |tasks| ==> more[k] == tasks[k];
  }

  /** Snapshots of other uids reach the row by its name only. */
  lemma {:induction false} TakenMeans(rows: seq<Row>, order: seq<nat>, tasks: seq<Snapshot>, i: nat)
    requires Within(rows, order) && i < |rows| && forall k :: 0 <= k < |tasks| ==> tasks[k].uid != rows[i].task.uid
    ensures i in Landed(rows, order, tasks).at <==> TakenByName(rows, order, tasks, i)
    decreases |tasks|
  {
    if tasks != [] {
      var before, t := tasks[..|tasks| - 1], tasks[|tasks| - 1];
      assert before + [t] == tasks;
      TakenMeans(rows, order, before, i);
      LandTakes(rows, order, Landed(rows, order, before), t, i);
      MatchByName(rows, order, t, i);
      TakenStep(rows, order, before, t, i);
      hide Match, NamesRow, TakenByName, Land;
    }
  }

  lemma {:induction false} LandedPrefix(rows: seq<Row>, order: seq<nat>, tasks: seq<Snapshot>, j: nat)
    requires Within(rows, order) && j <= |tasks|
    ensures Landed(rows, order, tasks[..j]).at == Landed(rows, order, tasks).at[..j]
    decreases |tasks|
  {
    var n := |tasks| - 1;
    if j == |tasks| {
      assert tasks[..j] == tasks;
    } else {
      LandedPrefix(rows, order, tasks[..n], j);
      assert tasks[..n][..j] == tasks[..j];
    }
  }

  lemma {:induction false} PlaceOf(rows: seq<Row>, order: seq<nat>, tasks: seq<Snapshot>, j: nat)
    requires Within(rows, order) && j < |tasks|
    ensures Landed(rows, order, tasks).at[j] == Land(rows, order, Landed(rows, order, tasks[..j]), tasks[j]).at[j]
  {
    hide Land;
    LandedPrefix(rows, order, tasks, j + 1);
    assert tasks[..j + 1][..j] == tasks[..j];
    assert Landed(rows, order, tasks).at[j] == Landed(rows, order, tasks).at[..j + 1][j];
  }

  /** A snapshot goes on in the row that has its uid if and only if no earlier snapshot, of no or an unknown uid,
      names that row by repository and title. */
  lemma {:induction false} SameUidSameRow(rows: seq<Row>, order: seq<nat>, tasks: seq<Snapshot>, j: nat, i: nat)
    requires Lists(rows, order) && UidsUnique(rows) && UidsDiffer(tasks) && j < |tasks|
    requires i in order && i < |rows| && tasks[j].uid != "" && rows[i].task.uid == tasks[j].uid
    ensures Landed(rows, order, tasks).at[j] == i <==> !TakenByName(rows, order, tasks[..j], i)
  {
    hide Land, Match, TakenByName, UidsUnique;
    MatchIsUnique(rows, order, tasks[j], i);
    PlaceOf(rows, order, tasks, j);
    TakenMeans(rows, order, tasks[..j], i);
    LandPlace(rows, order, Landed(rows, order, tasks[..j]), tasks[j], i);
  }

  /** The promise that a uid keeps its row fails on two snapshots that pass the gate: the first has a new uid and
      the old row's repository and title, the second has the old row's uid. */
  lemma {:induction false} NameTakesRow(first: Snapshot, renamed: Snapshot, again: Snapshot)
    requires first.uid != "" && again.uid == first.uid && renamed.uid != "" && renamed.uid != first.uid
    requires renamed.repository == first.repository != "" && renamed.title == first.title && again.repository != ""
    ensures ValidSnapshots([renamed, again])
    ensures Landed([Row(first, false)], [0], [renamed, again]).at[1] != 0
  {
    var rows, order, tasks := [Row(first, false)], [0], [renamed, again];
    assert order[0] == 0;
    assert tasks[..1] == [renamed];
    assert NamesRow(rows, order, tasks[..1][0], 0);
    SameUidSameRow(rows, order, tasks, 1, 0);
  }

  // ---- the table ----

  /** The loop over the snapshots: a row goes on at most once. */
  method LandAll(before: seq<Row>, order: seq<nat>, tasks: seq<Snapshot>)
    returns (rows: seq<Row>, claimed: set<nat>, created: nat, ghost at: seq<nat>)
    requires Within(before, order)
    ensures Landing(rows, at) == Landed(before, order, tasks)
    ensures forall i :: i in claimed <==> i in at && i < |before|
    ensures created == |rows| - |before| && |claimed| + created == |tasks|
  {
    hide Landed, Match, ByUid, ByKey;
    var byUid, byKey := BuildIndex(before, order);
    LandedNone(before, order);
    rows, claimed, created, at := before, {}, 0, [];
    for j := 0 to |tasks|
      invariant Landing(rows, at) == Landed(before, order, tasks[..j])
      invariant forall i :: i in claimed <==> i in at && i < |before|
      invariant created == |rows| - |before| && |claimed| + created == j
    {
      var t := tasks[j];
      LandedStep(before, order, tasks, j);
      var m := if t.uid != "" && t.uid in byUid then Some(byUid[t.uid])
               else if KeyOf(t) in byKey then Some(byKey[KeyOf(t)]) else None;
      MatchIs(before, order, t);
      if m.None? || m.value in claimed {
        AtGrows(at, |rows|);
        at := at + [|rows|];
        rows := rows + [Row(t, false)];
        created := created + 1;
      } else {
        AtGrows(at, m.value);
        claimed := claimed + {m.value};
        at := at + [m.value];
        rows := rows[m.value := Row(t, false)];
      }
    }
    assert tasks[..|tasks|] == tasks;
  }

  /** The loop over the rows that were live before. */
  method RetireAll(landed: seq<Row>, order: seq<nat>, claimed: set<nat>, ghost before: seq<Row>, ghost at: seq<nat>)
    returns (rows: seq<Row>, superseded: nat)
    requires Lists(before, order) && |before| <= |landed|
    requires forall i :: i in claimed <==> i in at && i < |before|
    requires forall i :: i in claimed ==> i in order
    ensures rows == Retired(Landing(landed, at), order) && |rows| == |landed| && superseded + |claimed| == |order|
  {
    hide Retired, Lists;
    ghost var l, gone: set<nat> := Landing(landed, at), {};
    rows, superseded := landed, 0;
    RetireNone(l);
    for k := 0 to |order|
      invariant rows == Retired(l, order[..k]) && |rows| == |landed|
      invariant superseded + |gone| == k && forall i :: i in gone <==> i in claimed && i in order[..k]
    {
      RetireStep(l, before, order, k);
      TakeStep(order, k);
      if order[k] in claimed {
        gone := gone + {order[k]};
        continue;
      }
      rows := rows[order[k] := rows[order[k]].(superseded := true)];
      superseded := superseded + 1;
    }
    assert order[..|order|] == order;
    assert gone == claimed;
  }

  lemma {:induction false} TakeStep(order: seq<nat>, k: nat)
    requires k < |order|
    ensures forall i :: i in order[..k + 1] <==> i in order[..k] || i == order[k]
  {
    assert order[..k + 1] == order[..k] + [order[k]];
  }

  class PlanRows {
    var rows: seq<Row>

    constructor (rows: seq<Row>)
      ensures this.rows == rows
    {
      this.rows := rows;
    }

    /** migrateTasksTx: every live row goes on or is superseded, every snapshot goes on or is created. */
    method Migrate(order: seq<nat>, tasks: seq<Snapshot>) returns (created: nat, superseded: nat)
      requires Lists(rows, order)
      modifies this
      ensures rows == Migrated(old(rows), order, tasks)
      ensures created == |rows| - |old(rows)| && |order| + created == |tasks| + superseded
    {
      var landed, claimed: set<nat>;
      ghost var at;
      landed, claimed, created, at := LandAll(rows, order, tasks);
      AllListed(rows, order, tasks, claimed);
      rows, superseded := RetireAll(landed, order, claimed, rows, at);
    }
  }

  lemma {:induction false} RetireNone(l: Landing)
    ensures forall order: seq<nat> :: Retired(l, order[..0]) == l.rows
  {
  }

  lemma {:induction false} RetireStep(l: Landing, rows: seq<Row>, order: seq<nat>, k: nat)
    requires Lists(rows, order) && |rows| <= |l.rows| && k < |order|
    ensures order[k] < |rows| && order[k] !in order[..k]
    ensures var done, i := Retired(l, order[..k]), order[k];
      Retired(l, order[..k + 1]) == if i in l.at then done else done[i := done[i].(superseded := true)]
  {
    assert order[..k + 1] == order[..k] + [order[k]];
  }

  lemma {:induction false} AllListed(rows: seq<Row>, order: seq<nat>, tasks: seq<Snapshot>, claimed: set<nat>)
    requires Within(rows, order)
    requires forall i :: i in claimed <==> i in Landed(rows, order, tasks).at && i < |rows|
    ensures forall i :: i in claimed ==> i in order
  {
    LandedIsSound(rows, order, tasks);
  }

  lemma {:induction false} LandedStep(rows: seq<Row>, order: seq<nat>, tasks: seq<Snapshot>, j: nat)
    requires Within(rows, order) && j < |tasks|
    ensures Landed(rows, order, tasks[..j + 1]) == Land(rows, order, Landed(rows, order, tasks[..j]), tasks[j])
  {
    assert tasks[..j + 1][..j] == tasks[..j];
  }

  lemma {:induction false} LandedNone(rows: seq<Row>, order: seq<nat>)
    requires Within(rows, order)
    ensures forall tasks: seq<Snapshot> :: Landed(rows, order, tasks[..0]) == Landing(rows, [])
  {
  }

  lemma {:induction false} MatchIs(rows: seq<Row>, order: seq<nat>, t: Snapshot)
    requires Within(rows, order)
    ensures Match(rows, order, t)
      == if t.uid != "" && ByUid(rows, order, t.uid).Some? then ByUid(rows, order, t.uid) else ByKey(rows, order, KeyOf(t))
  {
  }

  /** The two maps over the live rows; a later row overwrites. */
  method BuildIndex(rows: seq<Row>, order: seq<nat>) returns (byUid: map<string, nat>, byKey: map<string, nat>)
    requires Within(rows, order)
    ensures forall u :: u != "" ==> (if u in byUid then Some(byUid[u]) else None) == ByUid(rows, order, u)
    ensures forall x :: (if x in byKey then Some(byKey[x]) else None) == ByKey(rows, order, x)
  {
    byUid, byKey := map[], map[];
    for k := 0 to |order|
      invariant forall u :: u != "" ==> (if u in byUid then Some(byUid[u]) else None) == ByUid(rows, order[..k], u)
      invariant forall x :: (if x in byKey then Some(byKey[x]) else None) == ByKey(rows, order[..k], x)
    {
      assert order[..k + 1][..k] == order[..k];
      var t := rows[order[k]].task;
      if t.uid != "" {
        byUid := byUid[t.uid := order[k]];
      }
      byKey := byKey[KeyOf(t) := order[k]];
    }
    assert order[..|order|] == order;
  }

  // ---- revisions ----

  // 'v' and a number, or a version that cannot be stepped.
  datatype Version = Sequential(n: int) | Other(text: string)

  datatype Repo = Repo(id: string, fullName: string, name: string)

  /** In how many ways the scope reads a name; more than one is ambiguous. */
  function Readings(scope: seq<Repo>, name: string): nat {
    if scope == [] then 0
    else
      var r := scope[|scope| - 1];
      Readings(scope[..|scope| - 1], name)
      + (if r.id == name then 1 else 0) + (if r.fullName == name then 1 else 0) + (if r.name == name then 1 else 0)
  }

  predicate Reads(r: Repo, name: string) {
    r.id == name || r.fullName == name || r.name == name
  }

  datatype Command = Command(
    key: string, expected: Version, batches: seq<seq<string>>, tasks: seq<Snapshot>, actor: string, reason: string)

  // `scope` is history: the confirmed repositories when the revision was applied.
  datatype Entry = Entry(command: Command, result: Version, scope: seq<Repo>)

  datatype Plan = Plan(version: Version, history: seq<Entry>, rows: seq<Row>)

  datatype Outcome = Applied | Replayed(entry: Entry) | Conflict | Invalid

  // `order` is the order of the query; `elsewhere` are the uids of the project's other plans; `soundBatches` is what
  // the batch validation says.
  datatype Attempt = Attempt(
    command: Command, scope: seq<Repo>, order: seq<nat>, elsewhere: set<string>, soundBatches: bool)

  function Find(history: seq<Entry>, key: string): Option<Entry> {
    if history == [] then None
    else
      var earlier := Find(history[..|history| - 1], key);
      if earlier.Some? then earlier
      else if history[|history| - 1].command.key == key then Some(history[|history| - 1]) else None
  }

  predicate InScope(scope: seq<Repo>, c: Command) {
    && (forall b, i :: 0 <= b < |c.batches| && 0 <= i < |c.batches[b]| ==> Readings(scope, c.batches[b][i]) == 1)
    && (forall i :: 0 <= i < |c.tasks| ==> Readings(scope, c.tasks[i].repository) == 1)
  }

  predicate Elsewhere(tasks: seq<Snapshot>, elsewhere: set<string>) {
    exists i :: 0 <= i < |tasks| && tasks[i].uid != "" && tasks[i].uid in elsewhere
  }

  /** ApplyRevision. */
  ghost function Revise(p: Plan, a: Attempt): (Plan, Outcome)
    requires Lists(p.rows, a.order)
  {
    var c := a.command;
    if c.key == "" then (p, Conflict)
    else if !a.soundBatches || !ValidSnapshots(c.tasks) then (p, Invalid)
    else if Find(p.history, c.key).Some? then
      var entry := Find(p.history, c.key).value;
      (p, if entry.command == c then Replayed(entry) else Conflict)
    else if p.version != c.expected || p.version.Other? then (p, Conflict)
    else if !InScope(a.scope, c) then (p, Invalid)
    else if Elsewhere(c.tasks, a.elsewhere) then (p, Conflict)
    else
      var next := Sequential(p.version.n + 1);
      (Plan(next, p.history + [Entry(c, next, a.scope)], Migrated(p.rows, a.order, c.tasks)), Applied)
  }

  /** What a query returns is a listing of the live rows; other orders are no attempt. */
  ghost function Run(p: Plan, attempts: seq<Attempt>): Plan
    decreases |attempts|
  {
    if attempts == [] then p
    else if Lists(p.rows, attempts[0].order) then Run(Revise(p, attempts[0]).0, attempts[1..])
    else Run(p, attempts[1..])
  }

  /** The live rows are the tasks of the entry, one row each, every one in a repository that the scope of that
      revision read in exactly one way. */
  ghost predicate Carries(rows: seq<Row>, e: Entry) {
    && (exists at :: LiveRowsAre(rows, at, e.command.tasks))
    && (forall i :: 0 <= i < |rows| && !rows[i].superseded ==> Readings(e.scope, rows[i].task.repository) == 1)
  }

  predicate KeysDiffer(history: seq<Entry>) {
    forall i, k :: 0 <= k < i < |history| ==> history[k].command.key != history[i].command.key
  }

  /** Each entry was applied to the version before it. */
  predicate Chained(history: seq<Entry>, version: Version) {
    && (forall i :: 0 <= i < |history| ==>
          history[i].command.expected.Sequential? && history[i].result == Sequential(history[i].command.expected.n + 1))
    && (forall i :: 0 < i < |history| ==> history[i].command.expected == history[i - 1].result)
    && (history != [] ==> history[|history| - 1].result == version)
  }

  ghost predicate Inv(p: Plan) {
    && UidsUnique(p.rows) && KeysDiffer(p.history) && Chained(p.history, p.version)
    && (p.history != [] ==> Carries(p.rows, p.history[|p.history| - 1]))
  }

  lemma {:induction false} FindMeans(history: seq<Entry>, key: string)
    ensures Find(history, key).None? <==> forall i :: 0 <= i < |history| ==> history[i].command.key != key
    decreases |history|
  {
    if history != [] {
      FindMeans(history[..|history| - 1], key);
    }
  }

  lemma {:induction false} MigratedCarries(rows: seq<Row>, order: seq<nat>, e: Entry)
    requires Lists(rows, order) && InScope(e.scope, e.command)
    ensures Carries(Migrated(rows, order, e.command.tasks), e)
  {
    MigrationIsExact(rows, order, e.command.tasks);
    var after, at := Migrated(rows, order, e.command.tasks), Landed(rows, order, e.command.tasks).at;
    hide Migrated, Landed, Readings, Lists;
    forall i | 0 <= i < |after| && !after[i].superseded
      ensures Readings(e.scope, after[i].task.repository) == 1
    {
      var j :| 0 <= j < |at| && at[j] == i;
    }
  }

  lemma {:induction false} HistoryGrows(p: Plan, e: Entry)
    requires KeysDiffer(p.history) && Chained(p.history, p.version) && Find(p.history, e.command.key).None?
    requires p.version.Sequential? && e.command.expected == p.version && e.result == Sequential(p.version.n + 1)
    ensures KeysDiffer(p.history + [e]) && Chained(p.history + [e], e.result)
  {
    FindMeans(p.history, e.command.key);
  }

  lemma {:induction false} RevisionKeeps(p: Plan, a: Attempt)
    requires Inv(p) && Lists(p.rows, a.order)
    ensures Inv(Revise(p, a).0)
    ensures p.history <= Revise(p, a).0.history && |p.rows| <= |Revise(p, a).0.rows|
  {
    var (q, outcome) := Revise(p, a);
    if outcome.Applied? {
      var e := q.history[|p.history|];
      HistoryGrows(p, e);
      MigratedCarries(p.rows, a.order, e);
      ValidUidsDiffer(a.command.tasks);
      IndexNeverFires(p.rows, a.order, a.command.tasks, 0);
      MigrationIsExact(p.rows, a.order, a.command.tasks);
      hide Migrated, Carries, UidsUnique, KeysDiffer, Chained, Lists, InScope, ValidSnapshots;
      assert q.history[|q.history| - 1] == e;
    }
  }

  /** Over any attempts, each repeated, stale or contradictory as it may be: the history only grows, every key was
      applied once and to the version before it, and the live rows are the tasks of the last revision, one row
      each, inside the scope that was confirmed then. */
  lemma {:induction false} RunKeeps(p: Plan, attempts: seq<Attempt>)
    requires Inv(p)
    ensures Inv(Run(p, attempts)) && p.history <= Run(p, attempts).history && |p.rows| <= |Run(p, attempts).rows|
    decreases |attempts|
  {
    if attempts != [] {
      if Lists(p.rows, attempts[0].order) {
        RevisionKeeps(p, attempts[0]);
        RunKeeps(Revise(p, attempts[0]).0, attempts[1..]);
      } else {
        RunKeeps(p, attempts[1..]);
      }
    }
  }

  /** The snapshot list has a repository everywhere, no uid twice, and no second task of a name without a uid. */
  predicate Sound(tasks: seq<Snapshot>) {
    && (forall i :: 0 <= i < |tasks| ==> tasks[i].repository != "")
    && (forall i, k :: 0 <= k < i < |tasks| && tasks[i].uid != "" ==> tasks[k].uid != tasks[i].uid)
    && (forall i, k :: 0 <= k < i < |tasks| && tasks[i].uid == "" ==> KeyOf(tasks[k]) != KeyOf(tasks[i]))
  }

  lemma {:induction false} SoundIsValid(tasks: seq<Snapshot>)
    ensures ValidSnapshots(tasks) <==> Sound(tasks)
  {
    if ValidSnapshots(tasks) {
      forall i | 0 <= i < |tasks|
        ensures tasks[i].repository != ""
        ensures tasks[i].uid != "" ==> forall k :: 0 <= k < i ==> tasks[k].uid != tasks[i].uid
        ensures tasks[i].uid == "" ==> forall k :: 0 <= k < i ==> KeyOf(tasks[k]) != KeyOf(tasks[i])
      {
        assert Fits(tasks, i);
      }
    }
  }

  /** The key stands for repository and title as long as the repositories do not hold its separator. */
  lemma {:induction false} KeyNames(a: Snapshot, b: Snapshot)
    requires '\U{1F}' !in a.repository && '\U{1F}' !in b.repository
    ensures KeyOf(a) == KeyOf(b) <==> a.repository == b.repository && a.title == b.title
  {
    if KeyOf(a) == KeyOf(b) {
      var n, m := |a.repository|, |b.repository|;
      assert KeyOf(a)[n] == '\U{1F}' && KeyOf(b)[m] == '\U{1F}';
      assert forall i :: 0 <= i < n ==> KeyOf(a)[i] == a.repository[i] && a.repository[i] != '\U{1F}';
      assert forall i :: 0 <= i < m ==> KeyOf(b)[i] == b.repository[i] && b.repository[i] != '\U{1F}';
      assert n == m;
      assert KeyOf(a)[..n] == a.repository && KeyOf(b)[..m] == b.repository;
      assert KeyOf(a)[n + 1..] == a.title && KeyOf(b)[m + 1..] == b.title;
    }
  }

  predicate Known(history: seq<Entry>, key: string) {
    exists i :: 0 <= i < |history| && history[i].command.key == key
  }

  /** A revision applies exactly with a key nobody used, to the version it expects, as a sound list whose names the scope
      reads in one way and whose uids no other plan of the project has; it is recorded under the next version. A sound
      repetition of a known command is answered with its entry. In every other case nothing changes. */
  lemma {:induction false} RevisionAnswers(p: Plan, a: Attempt)
    requires Inv(p) && Lists(p.rows, a.order)
    ensures var c := a.command; var (q, outcome) := Revise(p, a); var sound := c.key != "" && a.soundBatches && Sound(c.tasks);
      && (outcome.Applied? <==>
            && sound && !Known(p.history, c.key) && p.version == c.expected && p.version.Sequential?
            && (forall b, i :: 0 <= b < |c.batches| && 0 <= i < |c.batches[b]| ==> Readings(a.scope, c.batches[b][i]) == 1)
            && (forall i :: 0 <= i < |c.tasks| ==> Readings(a.scope, c.tasks[i].repository) == 1)
            && (forall i :: 0 <= i < |c.tasks| && c.tasks[i].uid != "" ==> c.tasks[i].uid !in a.elsewhere))
      && (outcome.Replayed? <==> sound && exists i :: 0 <= i < |p.history| && p.history[i].command == c)
      && (outcome.Replayed? ==> outcome.entry in p.history && outcome.entry.command == c)
      && (outcome.Invalid? ==> c.key != "")
      && (c.key != "" && !sound ==> outcome.Invalid?)
      && (if outcome.Applied? then
            && q.version == Sequential(p.version.n + 1) && q.history == p.history + [Entry(c, q.version, a.scope)]
            && Carries(q.rows, Entry(c, q.version, a.scope))
          else q == p)
  {
    var c := a.command;
    SoundIsValid(c.tasks);
    FindMeans(p.history, c.key);
    if i :| 0 <= i < |p.history| && p.history[i].command.key == c.key {
      FindIs(p.history, i);
      assert p.history[i] in p.history;
      assert forall k :: 0 <= k < |p.history| && p.history[k].command.key == c.key ==> k == i;
    }
    if Revise(p, a).1.Applied? {
      MigratedCarries(p.rows, a.order, Entry(c, Sequential(p.version.n + 1), a.scope));
    }
    hide Migrated, Carries, UidsUnique, Chained, Lists, Sound, ValidSnapshots;
  }

  /** Applying a revision again, whatever was revised since, returns it and changes nothing. */
  lemma {:induction false} RepeatedIsReplayed(p: Plan, a: Attempt, later: seq<Attempt>, again: Attempt)
    requires Inv(p) && Lists(p.rows, a.order) && Revise(p, a).1.Applied? && again.command == a.command
    requires again.soundBatches
    requires Lists(Run(Revise(p, a).0, later).rows, again.order)
    ensures var q := Run(Revise(p, a).0, later);
      Revise(q, again) == (q, Replayed(Revise(p, a).0.history[|p.history|]))
  {
    var r := Revise(p, a).0;
    RevisionKeeps(p, a);
    RunKeeps(r, later);
    FindIs(Run(r, later).history, |p.history|);
  }

  lemma {:induction false} FindIs(history: seq<Entry>, i: nat)
    requires KeysDiffer(history) && i < |history|
    ensures Find(history, history[i].command.key) == Some(history[i])
    decreases |history|
  {
    var n := |history| - 1;
    if i < n {
      FindIs(history[..n], i);
    } else {
      FindMeans(history[..n], history[i].command.key);
    }
  }

  /** A name that is read in one way stands for one repository of the scope. */
  lemma {:induction false} OneReading(scope: seq<Repo>, name: string)
    ensures Readings(scope, name) == 0 <==> forall i :: 0 <= i < |scope| ==> !Reads(scope[i], name)
    ensures Readings(scope, name) == 1 ==> forall i, k :: 0 <= k < i < |scope| ==> !Reads(scope[i], name) || !Reads(scope[k], name)
    decreases |scope|
  {
    if scope != [] {
      OneReading(scope[..|scope| - 1], name);
      assert forall i :: 0 <= i < |scope| - 1 ==> scope[..|scope| - 1][i] == scope[i];
    }
  }
}
