/** The migration ledger of internal/database: a manifest is loaded from file names, the ledger must be a
    prefix of it, and what is missing is executed and recorded in one transaction under a lock. */
module Migrations {
  import opened Text

  datatype Migration = Migration(version: nat, name: string, sql: string, checksum: string)
  datatype Row = Row(version: nat, name: string, checksum: string)
  datatype Entry = Entry(name: string, isDir: bool, sql: string, checksum: string)

  function RowOf(m: Migration): Row {
    Row(m.version, m.name, m.checksum)
  }

  /** The ledger table, absent before the first migration created it, and the history of committed SQL. */
  datatype Database = Database(ledger: Option<seq<Row>>, executed: seq<Migration>)

  const Empty := Database(None, [])

  /** A manifest as loadMigrations accepts it: contiguous versions from one, never empty. */
  predicate Manifest(ms: seq<Migration>) {
    ms != [] && forall i :: 0 <= i < |ms| ==> ms[i].version == i + 1
  }

  function Rows(ms: seq<Migration>): (rows: seq<Row>)
    ensures |rows| == |ms| && forall i :: 0 <= i < |ms| ==> rows[i] == RowOf(ms[i])
  {
    if ms == [] then [] else Rows(ms[..|ms| - 1]) + [RowOf(ms[|ms| - 1])]
  }

  // ---- the manifest ----

  predicate Digit(c: char) { '0' <= c <= '9' }
  predicate Lower(c: char) { 'a' <= c <= 'z' }

  function DigitValue(c: char): nat
    requires Digit(c)
  {
    (c - '0') as int
  }

  /** ^([0-9]{4})_([a-z][a-z0-9_]*)\.sql$ and its first group. */
  function FileVersion(name: string): Option<nat> {
    if |name| < 10 || !(forall i :: 0 <= i < 4 ==> Digit(name[i])) || name[4] != '_' || !Lower(name[5])
       || name[|name| - 4..] != ".sql"
       || !(forall i :: 5 <= i < |name| - 4 ==> Lower(name[i]) || Digit(name[i]) || name[i] == '_')
    then None
    else Some(1000 * DigitValue(name[0]) + 100 * DigitValue(name[1]) + 10 * DigitValue(name[2]) + DigitValue(name[3]))
  }

  predicate EntryOk(e: Entry, index: nat) {
    !e.isDir && FileVersion(e.name) == Some(index + 1) && !Blank(e.sql)
  }

  method LoadMigrations(entries: seq<Entry>) returns (result: Option<seq<Migration>>)
    ensures result.Some? <==> entries != [] && forall i :: 0 <= i < |entries| ==> EntryOk(entries[i], i)
    ensures result.Some? ==>
      && Manifest(result.value) && |result.value| == |entries|
      && forall i :: 0 <= i < |entries| ==>
           result.value[i] == Migration(i + 1, entries[i].name, entries[i].sql, entries[i].checksum)
  {
    if entries == [] {
      return None;
    }
    var ms: seq<Migration> := [];
    for index := 0 to |entries|
      invariant |ms| == index && forall i :: 0 <= i < index ==> EntryOk(entries[i], i)
      invariant forall i :: 0 <= i < index ==>
        ms[i] == Migration(i + 1, entries[i].name, entries[i].sql, entries[i].checksum)
    {
      var entry := entries[index];
      var version := FileVersion(entry.name);
      if entry.isDir || version.None? || version.value != index + 1 || Blank(entry.sql) {
        return None;
      }
      ms := ms + [Migration(version.value, entry.name, entry.sql, entry.checksum)];
    }
    return Some(ms);
  }

  // ---- one call ----

  /** What readHistory accepts: no ledger yet, or a non-empty prefix of the manifest. */
  predicate Accepted(ledger: Option<seq<Row>>, ms: seq<Migration>) {
    ledger.Some? ==> ledger.value != [] && ledger.value <= Rows(ms)
  }

  function Applied(ledger: Option<seq<Row>>): nat {
    if ledger.None? then 0 else |ledger.value|
  }

  /** The row loop of readHistory; the result is the current version, None a history mismatch. */
  method ReadHistory(ledger: Option<seq<Row>>, ms: seq<Migration>) returns (current: Option<nat>)
    requires Manifest(ms)
    ensures current.Some? <==> Accepted(ledger, ms)
    ensures current.Some? ==> current.value == Applied(ledger)
  {
    if ledger.None? {
      return Some(0);
    }
    var rows := ledger.value;
    var version, index := 0, 0;
    while index < |rows|
      invariant 0 <= index <= |rows| && index <= |ms| && version == index
      invariant rows[..index] == Rows(ms)[..index]
    {
      if index >= |ms| || rows[index].version > |ms| {
        return None;
      }
      var expected := ms[index];
      if rows[index].version != expected.version {
        return None;
      }
      if rows[index].name != expected.name || rows[index].checksum != expected.checksum {
        return None;
      }
      version := rows[index].version;
      index := index + 1;
    }
    if index == 0 {
      return None;
    }
    assert rows[..index] == rows;
    return Some(version);
  }

  // How the transaction ends: an SQL statement fails, the commit fails and is or is not in effect, or all is well.
  datatype Outcome = Broken(at: nat) | CommitLost | CommitUnseen | Committed

  /** Executing one migration inside the transaction. The first one creates the ledger table, so it
      fails on a database that has one; recording needs the table. */
  function Execute(db: Database, m: Migration): Option<Database> {
    if m.version == 1 && db.ledger.Some? then None
    else
      var ledger := if m.version == 1 then Some([]) else db.ledger;
      if ledger.None? then None
      else Some(Database(Some(ledger.value + [RowOf(m)]), db.executed + [m]))
  }

  datatype Reply = Failed | Current(version: nat)

  /** The transaction's view after migrations n..i of an accepted database. */
  function Pending(db: Database, ms: seq<Migration>, n: nat, i: nat): Database
    requires n <= i <= |ms|
  {
    if i == n then db else Database(Some(Rows(ms)[..i]), db.executed + ms[n..i])
  }

  lemma PendingStep(db: Database, ms: seq<Migration>, i: nat)
    requires Manifest(ms) && Accepted(db.ledger, ms) && Applied(db.ledger) <= i < |ms|
    ensures Execute(Pending(db, ms, Applied(db.ledger), i), ms[i]) == Some(Pending(db, ms, Applied(db.ledger), i + 1))
  {
    var n := Applied(db.ledger);
    assert Rows(ms)[..i + 1] == Rows(ms)[..i] + [RowOf(ms[i])];
    assert ms[n..i + 1] == ms[n..i] + [ms[i]];
    if i == n {
      assert db.ledger.Some? ==> db.ledger.value == Rows(ms)[..i];
      assert ms[n..i + 1] == [ms[i]];
    } else {
      assert db.executed + ms[n..i + 1] == (db.executed + ms[n..i]) + [ms[i]];
    }
  }

  lemma {:induction false} PendingEnd(db: Database, ms: seq<Migration>)
    requires Manifest(ms) && Accepted(db.ledger, ms)
    ensures Applied(db.ledger) <= |ms|
    ensures Pending(db, ms, Applied(db.ledger), |ms|)
         == Database(Some(Rows(ms)), db.executed + ms[Applied(db.ledger)..])
  {
    var n := Applied(db.ledger);
    assert Rows(ms)[..|ms|] == Rows(ms) && ms[n..|ms|] == ms[n..];
    assert ms[|ms|..] == [] && db.executed + [] == db.executed;
    assert db.ledger.Some? && n == |ms| ==> db.ledger.value == Rows(ms);
  }

  method Migrate(db: Database, ms: seq<Migration>, outcome: Outcome) returns (after: Database, reply: Reply)
    requires Manifest(ms)
    ensures (after, reply) == Migrated(db, ms, outcome)
  {
    var current := ReadHistory(db.ledger, ms);
    if current.None? {
      return db, Failed;
    }
    PendingEnd(db, ms);
    var work, i := db, current.value;
    while i < |ms|
      invariant current.value <= i <= |ms| && work == Pending(db, ms, current.value, i)
      invariant outcome.Broken? && current.value <= outcome.at ==> i <= outcome.at
    {
      if outcome == Broken(i) {
        return db, Failed;
      }
      PendingStep(db, ms, i);
      work := Execute(work, ms[i]).value;
      i := i + 1;
    }
    match outcome {
      case CommitLost => return db, Failed;
      case CommitUnseen => return work, Failed;
      case _ => return work, Current(|ms|);
    }
  }

  /** The whole effect of a call. */
  function Migrated(db: Database, ms: seq<Migration>, outcome: Outcome): (Database, Reply)
    requires Manifest(ms)
  {
    if !Accepted(db.ledger, ms) then (db, Failed)
    else
      var n := Applied(db.ledger);
      var done := Database(Some(Rows(ms)), db.executed + ms[n..]);
      match outcome
      case Broken(at) => if n <= at < |ms| then (db, Failed) else (done, Current(|ms|))
      case CommitLost => (db, Failed)
      case CommitUnseen => (done, Failed)
      case Committed => (done, Current(|ms|))
  }

  // ---- every run of calls ----

  datatype Call = Call(manifest: seq<Migration>, outcome: Outcome)

  function Run(db: Database, calls: seq<Call>): Database
    requires forall c | c in calls :: Manifest(c.manifest)
    decreases |calls|
  {
    if calls == [] then db else Run(Migrated(db, calls[0].manifest, calls[0].outcome).0, calls[1..])
  }

  /** Every binary's manifest is a prefix of the newest one: manifests only ever grow. */
  predicate Releases(calls: seq<Call>, newest: seq<Migration>) {
    forall c | c in calls :: Manifest(c.manifest) && c.manifest <= newest
  }

  /** The ledger is a prefix of the newest manifest, and exactly its migrations were executed, in order. */
  predicate OnTrack(db: Database, newest: seq<Migration>) {
    if db.ledger.None? then db.executed == []
    else
      var n := |db.ledger.value|;
      1 <= n <= |newest| && db.ledger.value == Rows(newest)[..n] && db.executed == newest[..n]
  }

  lemma {:induction false} PrefixRows(ms: seq<Migration>, newest: seq<Migration>)
    requires ms <= newest
    ensures Rows(ms) == Rows(newest)[..|ms|]
  {
    assert forall i :: 0 <= i < |ms| ==> Rows(ms)[i] == Rows(newest)[i];
  }

  lemma {:induction false} Caught(db: Database, ms: seq<Migration>, newest: seq<Migration>)
    requires OnTrack(db, newest) && Manifest(ms) && ms <= newest && Accepted(db.ledger, ms)
    ensures Applied(db.ledger) <= |ms| && db.executed + ms[Applied(db.ledger)..] == ms
    ensures Rows(ms) == Rows(newest)[..|ms|] && newest[..|ms|] == ms
  {
    PrefixRows(ms, newest);
    var n := Applied(db.ledger);
    assert db.ledger.Some? ==> newest[..n] == ms[..n];
    assert ms[..n] + ms[n..] == ms;
  }

  lemma {:induction false} CallKeeps(db: Database, ms: seq<Migration>, outcome: Outcome, newest: seq<Migration>)
    requires OnTrack(db, newest) && Manifest(ms) && ms <= newest
    ensures OnTrack(Migrated(db, ms, outcome).0, newest)
    ensures Applied(db.ledger) > |ms| ==> Migrated(db, ms, outcome) == (db, Failed)
    ensures Migrated(db, ms, outcome).1.Current? ==>
      Migrated(db, ms, outcome).0.ledger == Some(Rows(ms)) && Migrated(db, ms, outcome).0.executed == ms
  {
    if Accepted(db.ledger, ms) {
      Caught(db, ms, newest);
    }
  }

  lemma {:induction false} RunKeeps(db: Database, calls: seq<Call>, newest: seq<Migration>)
    requires OnTrack(db, newest) && Releases(calls, newest)
    ensures OnTrack(Run(db, calls), newest)
    decreases |calls|
  {
    if calls != [] {
      CallKeeps(db, calls[0].manifest, calls[0].outcome, newest);
      RunKeeps(Migrated(db, calls[0].manifest, calls[0].outcome).0, calls[1..], newest);
    }
  }

  /** From an empty database, whatever calls by whatever releases and however they end, the ledger is a
      prefix of the newest manifest and its migrations were each executed once, in order. */
  lemma {:induction false} LedgerIsPrefix(calls: seq<Call>, newest: seq<Migration>)
    requires Releases(calls, newest)
    ensures OnTrack(Run(Empty, calls), newest)
  {
    RunKeeps(Empty, calls, newest);
  }

  /** An older binary meeting a newer ledger fails before executing anything; a call that reports success
      leaves exactly its manifest, on record and executed. */
  lemma {:induction false} NextCall(calls: seq<Call>, newest: seq<Migration>, ms: seq<Migration>, outcome: Outcome)
    requires Releases(calls, newest) && Manifest(ms) && ms <= newest
    ensures var db := Run(Empty, calls); var (after, reply) := Migrated(db, ms, outcome);
      && (Applied(db.ledger) > |ms| ==> after == db && reply == Failed)
      && (reply.Current? ==> after.ledger == Some(Rows(ms)) && after.executed == ms)
  {
    RunKeeps(Empty, calls, newest);
    CallKeeps(Run(Empty, calls), ms, outcome, newest);
  }

  /** A binary whose manifest disagrees with the ledger anywhere changes nothing. */
  lemma DivergedChangesNothing(db: Database, ms: seq<Migration>, outcome: Outcome, i: nat)
    requires Manifest(ms) && db.ledger.Some? && i < |db.ledger.value|
    requires i >= |ms| || db.ledger.value[i] != RowOf(ms[i])
    ensures Migrated(db, ms, outcome) == (db, Failed)
  {
  }

  // ---- the answers of a call ----

  /** No ledger yet, or one that starts the manifest: version, name and checksum row by row. */
  predicate Continues(ledger: Option<seq<Row>>, ms: seq<Migration>) {
    ledger.Some? ==>
      1 <= |ledger.value| <= |ms| && forall i :: 0 <= i < |ledger.value| ==>
        ledger.value[i].version == ms[i].version && ledger.value[i].name == ms[i].name
        && ledger.value[i].checksum == ms[i].checksum
  }

  lemma {:induction false} AcceptedContinues(ledger: Option<seq<Row>>, ms: seq<Migration>)
    ensures Accepted(ledger, ms) <==> Continues(ledger, ms)
  {
    if ledger.Some? {
      var rows := ledger.value;
      assert rows <= Rows(ms) <==> |rows| <= |ms| && forall i :: 0 <= i < |rows| ==> rows[i] == RowOf(ms[i]);
    }
  }

  /** A call takes effect exactly when the ledger continues into the manifest, no missing migration breaks and the commit
      is not lost; then it executes exactly the missing ones, in order, and records the whole manifest. It reports its
      last version exactly when it took effect and saw the commit. */
  lemma {:induction false} CallAnswers(db: Database, ms: seq<Migration>, outcome: Outcome)
    requires Manifest(ms)
    ensures var (after, reply) := Migrated(db, ms, outcome); var n := if db.ledger.Some? then |db.ledger.value| else 0;
      if Continues(db.ledger, ms) && outcome != CommitLost && !(outcome.Broken? && n <= outcome.at < |ms|) then
        && after.executed == db.executed + ms[n..] && after.ledger.Some? && |after.ledger.value| == |ms|
        && (forall i :: 0 <= i < |ms| ==> after.ledger.value[i] == Row(ms[i].version, ms[i].name, ms[i].checksum))
        && reply == (if outcome == CommitUnseen then Failed else Current(|ms|))
      else after == db && reply == Failed
  {
    AcceptedContinues(db.ledger, ms);
    hide Accepted, Continues;
  }

  /** Whatever went wrong before, a call of the newest release that is not disturbed brings the database to its manifest,
      each migration executed once. */
  lemma {:induction false} NextCallFinishes(calls: seq<Call>, newest: seq<Migration>)
    requires Releases(calls, newest) && Manifest(newest)
    ensures var (after, reply) := Migrated(Run(Empty, calls), newest, Committed);
      after == Database(Some(Rows(newest)), newest) && reply == Current(|newest|)
  {
    var db := Run(Empty, calls);
    RunKeeps(Empty, calls, newest);
    assert Rows(newest)[..|Rows(newest)|] == Rows(newest);
    Caught(db, newest, newest);
  }

  // ---- file names ----

  predicate Stem(stem: string) {
    stem != "" && Lower(stem[0]) && forall i :: 0 <= i < |stem| ==> Lower(stem[i]) || Digit(stem[i]) || stem[i] == '_'
  }

  function DigitOf(n: nat): char
    requires n < 10
  {
    '0' + n as char
  }

  /** The version in four digits. */
  function Printed(version: nat): string
    requires version < 10000
  {
    [DigitOf(version / 1000), DigitOf(version / 100 % 10), DigitOf(version / 10 % 10), DigitOf(version % 10)]
  }

  /** The shape of the file name around its version. */
  predicate Shaped(name: string) {
    |name| >= 10 && name[4] == '_' && Stem(name[5..|name| - 4]) && name[|name| - 4..] == ".sql"
  }

  lemma {:induction false} ShapeIs(name: string)
    ensures FileVersion(name).Some? <==> Shaped(name) && forall i :: 0 <= i < 4 ==> Digit(name[i])
  {
    if |name| >= 10 {
      var stem := name[5..|name| - 4];
      assert forall i :: 0 <= i < |stem| ==> stem[i] == name[i + 5];
      assert forall i :: 5 <= i < |name| - 4 ==> name[i] == stem[i - 5];
    }
    hide Digit, Lower, DigitValue;
  }

  lemma {:induction false} VersionReads(name: string)
    requires FileVersion(name).Some?
    ensures |name| >= 10 && FileVersion(name).value < 10000 && name[..4] == Printed(FileVersion(name).value)
  {
    var a, b, c, d := DigitValue(name[0]), DigitValue(name[1]), DigitValue(name[2]), DigitValue(name[3]);
    DigitsPrinted(a, b, c, d);
    assert name[..4] == [DigitOf(a), DigitOf(b), DigitOf(c), DigitOf(d)];
  }

  lemma {:induction false} PrintedApart(version: nat, other: nat)
    requires version < 10000 && other < 10000 && Printed(version) == Printed(other)
    ensures version == other
  {
    PrintedDigits(version);
    PrintedDigits(other);
    hide *;
  }

  lemma {:induction false} PrintedIsDigits(name: string, version: nat)
    requires version < 10000 && |name| >= 4 && name[..4] == Printed(version)
    ensures forall i :: 0 <= i < 4 ==> Digit(name[i])
  {
    var p := Printed(version);
    assert forall i :: 0 <= i < 4 ==> name[i] == p[i];
    DigitReads(version / 1000);
    DigitReads(version / 100 % 10);
    DigitReads(version / 10 % 10);
    DigitReads(version % 10);
    hide Digit, DigitOf;
  }

  /** A file name carries a version exactly when it is the version in four digits, an underscore, a stem and .sql. */
  lemma {:induction false} VersionIsPrinted(name: string, version: nat)
    ensures FileVersion(name) == Some(version) <==>
      version < 10000 && |name| >= 10 && name[..4] == Printed(version) && name[4] == '_' && Stem(name[5..|name| - 4])
      && name[|name| - 4..] == ".sql"
  {
    ShapeIs(name);
    hide FileVersion, Printed, Stem, Digit;
    if FileVersion(name).Some? {
      VersionReads(name);
      if version < 10000 && name[..4] == Printed(version) {
        PrintedApart(version, FileVersion(name).value);
      }
    } else if version < 10000 && |name| >= 10 && name[..4] == Printed(version) {
      PrintedIsDigits(name, version);
    }
  }

  lemma {:induction false} DigitsPrinted(a: nat, b: nat, c: nat, d: nat)
    requires a < 10 && b < 10 && c < 10 && d < 10
    ensures Printed(1000 * a + 100 * b + 10 * c + d) == [DigitOf(a), DigitOf(b), DigitOf(c), DigitOf(d)]
  {
    var n := 1000 * a + 100 * b + 10 * c + d;
    assert n / 1000 == a && n / 100 == 10 * a + b && n / 10 == 100 * a + 10 * b + c;
  }

  lemma {:induction false} PrintedDigits(version: nat)
    requires version < 10000
    ensures var p := Printed(version);
      1000 * DigitValue(p[0]) + 100 * DigitValue(p[1]) + 10 * DigitValue(p[2]) + DigitValue(p[3]) == version
  {
    var tens := version / 10;
    var hundreds := tens / 10;
    assert version / 100 == hundreds && version / 1000 == hundreds / 10;
    DigitReads(version / 1000);
    DigitReads(version / 100 % 10);
    DigitReads(version / 10 % 10);
    DigitReads(version % 10);
    hide *;
  }

  lemma {:induction false} DigitReads(n: nat)
    requires n < 10
    ensures Digit(DigitOf(n)) && DigitValue(DigitOf(n)) == n
  {
  }
}
