/** Dependency repositories of a task: filtered in place, then written into the checkout script as a list of
    name:ref words. */
module Dependencies {
  import opened ScopeChain
  import opened Text

  datatype Dependency = Dependency(name: string, ref: string)

  const SHELL_CHARACTERS := " \t\r\n'\"`$\\;&|<>()*?[]{}"
  const DELIVERY_PREFIX := "repomesh/auto-"

  /** The first slash; |name| when there is none. */
  function SlashAt(name: string): (i: nat)
    ensures i <= |name| && (forall j :: 0 <= j < i ==> name[j] != '/') && (i < |name| ==> name[i] == '/')
  {
    if name == "" || name[0] == '/' then 0 else SlashAt(name[1..]) + 1
  }

  /** safeRepoFullName: owner/name, both non-empty, one slash, nothing the shell reads. */
  predicate SafeName(name: string) {
    name != "" && (forall i :: 0 <= i < |name| ==> name[i] !in SHELL_CHARACTERS)
    && var at := SlashAt(name);
       0 < at < |name| - 1 && '/' !in name[at + 1..]
  }

  predicate RefCharacter(c: char) {
    'a' <= c <= 'z' || 'A' <= c <= 'Z' || '0' <= c <= '9' || c in {'-', '_', '/'}
  }

  /** deliveryRefIsSafe. */
  predicate SafeRef(ref: string) {
    DELIVERY_PREFIX <= ref && |ref| <= 120 && forall i :: 0 <= i < |ref| ==> RefCharacter(ref[i])
  }

  method DeliveryRefIsSafe(ref: string) returns (safe: bool)
    ensures safe <==> SafeRef(ref)
  {
    if !(DELIVERY_PREFIX <= ref) || |ref| > 120 {
      return false;
    }
    for i := 0 to |ref|
      invariant forall j :: 0 <= j < i ==> RefCharacter(ref[j])
    {
      if !RefCharacter(ref[i]) {
        return false;
      }
    }
    return true;
  }

  /** What the shell would read in a name: blanks, quotes, expansions, separators, redirections, groups and patterns. */
  predicate ShellReads(c: char) {
    c in {' ', '\t', '\r', '\n', '\'', '"', '`', '$', '\\', ';', '&', '|', '<', '>', '(', ')', '*', '?', '[', ']', '{', '}'}
  }

  lemma {:induction false} ShellReadsMore(c: char)
    ensures c in SHELL_CHARACTERS ==> ShellReads(c)
  {
  }

  lemma {:induction false} ShellReadsFirst(c: char)
    requires c in {' ', '\t', '\r', '\n', '\'', '"', '`', '$', '\\', ';', '&', '|'}
    ensures c in SHELL_CHARACTERS
  {
    var s := SHELL_CHARACTERS;
    assert s[0] == ' ' && s[1] == '\t' && s[2] == '\r' && s[3] == '\n' && s[4] == '\'' && s[5] == '"';
    assert s[6] == '`' && s[7] == '$' && s[8] == '\\' && s[9] == ';' && s[10] == '&' && s[11] == '|';
  }

  lemma {:induction false} ShellReadsLast(c: char)
    requires c in {'<', '>', '(', ')', '*', '?', '[', ']', '{', '}'}
    ensures c in SHELL_CHARACTERS
  {
    var s := SHELL_CHARACTERS;
    assert s[12] == '<' && s[13] == '>' && s[14] == '(' && s[15] == ')' && s[16] == '*' && s[17] == '?';
    assert s[18] == '[' && s[19] == ']' && s[20] == '{' && s[21] == '}';
  }

  lemma {:induction false} ShellCharactersAre(c: char)
    ensures c in SHELL_CHARACTERS <==> ShellReads(c)
  {
    ShellReadsMore(c);
    if c in {'<', '>', '(', ')', '*', '?', '[', ']', '{', '}'} {
      ShellReadsLast(c);
    } else if ShellReads(c) {
      ShellReadsFirst(c);
    }
  }

  /** A name is safe exactly when it is an owner, one slash and a repository, neither of them empty, with nothing in it
      that the shell reads. */
  lemma {:induction false} SafeNameMeans(name: string)
    ensures SafeName(name) <==>
      exists at :: 0 < at < |name| - 1 && name[at] == '/' && forall i :: 0 <= i < |name| ==>
        !ShellReads(name[i]) && (name[i] == '/' ==> i == at)
  {
    forall i | 0 <= i < |name|
      ensures name[i] !in SHELL_CHARACTERS <==> !ShellReads(name[i])
    {
      ShellCharactersAre(name[i]);
    }
    var at := SlashAt(name);
    if 0 < at < |name| - 1 {
      assert forall i :: at < i < |name| ==> name[i] == name[at + 1..][i - at - 1];
    }
    hide ShellReads;
  }

  /** A ref is safe exactly when it is a delivery branch: the prefix and at most 106 letters, digits, hyphens, underscores
      and slashes. */
  lemma {:induction false} SafeRefMeans(ref: string)
    ensures SafeRef(ref) <==>
      |ref| >= 14 && ref[..14] == "repomesh/auto-" && |ref| - 14 <= 106 && forall i :: 14 <= i < |ref| ==>
        'a' <= ref[i] <= 'z' || 'A' <= ref[i] <= 'Z' || '0' <= ref[i] <= '9' || ref[i] in {'-', '_', '/'}
  {
    assert forall i :: 0 <= i < |DELIVERY_PREFIX| ==> RefCharacter(DELIVERY_PREFIX[i]);
    if |ref| >= 14 && ref[..14] == DELIVERY_PREFIX {
      assert forall i :: 0 <= i < 14 ==> ref[i] == DELIVERY_PREFIX[i];
    }
  }

  // ---- what the filter means ----

  predicate Kept(self: string, d: Dependency) {
    SafeName(d.name) && d.name != self
  }

  /** The kept names in order of first occurrence. */
  function KeptNames(self: string, deps: seq<Dependency>): seq<string> {
    if deps == [] then []
    else
      var before, last := KeptNames(self, deps[..|deps| - 1]), deps[|deps| - 1];
      if Kept(self, last) && last.name !in before then before + [last.name] else before
  }

  /** The first safe non-empty ref given for that name; "" when there is none. */
  function FirstRef(deps: seq<Dependency>, name: string): string {
    if deps == [] then ""
    else
      var before, last := FirstRef(deps[..|deps| - 1], name), deps[|deps| - 1];
      if before == "" && last.name == name && SafeRef(last.ref) then last.ref else before
  }

  function Filtered(self: string, deps: seq<Dependency>): seq<Dependency> {
    var names := KeptNames(self, deps);
    seq(|names|, k requires 0 <= k < |names| => Dependency(names[k], FirstRef(deps, names[k])))
  }

  predicate Names(deps: seq<Dependency>, name: string) {
    exists i :: 0 <= i < |deps| && deps[i].name == name
  }

  lemma {:induction false} NamesStep(deps: seq<Dependency>, name: string)
    requires deps != []
    ensures Names(deps, name) <==> Names(deps[..|deps| - 1], name) || deps[|deps| - 1].name == name
  {
    assert forall i :: 0 <= i < |deps| - 1 ==> deps[..|deps| - 1][i] == deps[i];
  }

  lemma {:induction false} KeptNamesDistinct(self: string, deps: seq<Dependency>)
    ensures Distinct(KeptNames(self, deps))
    decreases |deps|
  {
    if deps != [] {
      KeptNamesDistinct(self, deps[..|deps| - 1]);
    }
  }

  /** The kept names are the safe names given, without the task's own repository. */
  lemma {:induction false} KeptNamesMean(self: string, deps: seq<Dependency>, name: string)
    ensures name in KeptNames(self, deps) <==> name != self && SafeName(name) && Names(deps, name)
    decreases |deps|
  {
    if deps != [] {
      KeptNamesMean(self, deps[..|deps| - 1], name);
      NamesStep(deps, name);
    }
  }

  /** They come in the order in which they were first given. */
  lemma {:induction false} KeptInOrder(self: string, deps: seq<Dependency>, more: seq<Dependency>)
    ensures KeptNames(self, deps) <= KeptNames(self, deps + more)
    decreases |more|
  {
    if more == [] {
      assert deps + more == deps;
    } else {
      assert (deps + more)[..|deps + more| - 1] == deps + more[..|more| - 1];
      KeptInOrder(self, deps, more[..|more| - 1]);
    }
  }

  /** FirstRef is a ref of that name, and no earlier entry of the name has a safe one. */
  lemma {:induction false} FirstRefMeans(deps: seq<Dependency>, name: string) returns (i: nat)
    ensures FirstRef(deps, name) == "" ==>
      forall j :: 0 <= j < |deps| && deps[j].name == name ==> !SafeRef(deps[j].ref)
    ensures FirstRef(deps, name) != "" ==>
      i < |deps| && deps[i] == Dependency(name, FirstRef(deps, name)) && SafeRef(deps[i].ref)
      && forall j :: 0 <= j < i && deps[j].name == name ==> !SafeRef(deps[j].ref)
    decreases |deps|
  {
    i := 0;
    if deps != [] {
      var n := |deps| - 1;
      i := FirstRefMeans(deps[..n], name);
      assert forall j :: 0 <= j < n ==> deps[..n][j] == deps[j];
      if FirstRef(deps[..n], name) == "" && deps[n].name == name && SafeRef(deps[n].ref) {
        i := n;
      }
    }
  }

  function Cleaned(ref: string): string {
    if SafeRef(ref) then ref else ""
  }

  lemma {:induction false} FirstRefStep(deps: seq<Dependency>, i: nat, name: string)
    requires i < |deps|
    ensures var before := FirstRef(deps[..i], name);
      FirstRef(deps[..i + 1], name) == if before == "" && deps[i].name == name then Cleaned(deps[i].ref) else before
  {
    assert deps[..i + 1][..i] == deps[..i];
  }

  lemma {:induction false} NoRef(deps: seq<Dependency>, name: string)
    requires forall j :: 0 <= j < |deps| ==> deps[j].name != name
    ensures FirstRef(deps, name) == ""
  {
    if deps != [] {
      NoRef(deps[..|deps| - 1], name);
    }
  }

  lemma {:induction false} DroppedStep(self: string, deps: seq<Dependency>, i: nat)
    requires i < |deps| && !Kept(self, deps[i])
    ensures Filtered(self, deps[..i + 1]) == Filtered(self, deps[..i])
    ensures KeptNames(self, deps[..i + 1]) == KeptNames(self, deps[..i])
  {
    var names := KeptNames(self, deps[..i]);
    assert deps[..i + 1][..i] == deps[..i];
    KeptNamesMean(self, deps[..i], deps[i].name);
    forall k | 0 <= k < |names|
      ensures FirstRef(deps[..i + 1], names[k]) == FirstRef(deps[..i], names[k])
    {
      FirstRefStep(deps, i, names[k]);
      assert names[k] in names;
    }
  }

  lemma {:induction false} RepeatedStep(self: string, deps: seq<Dependency>, i: nat, at: nat)
    requires i < |deps| && Kept(self, deps[i])
    requires at < |KeptNames(self, deps[..i])| && KeptNames(self, deps[..i])[at] == deps[i].name
    ensures KeptNames(self, deps[..i + 1]) == KeptNames(self, deps[..i])
    ensures var before := Filtered(self, deps[..i]);
      Filtered(self, deps[..i + 1])
        == before[at := Dependency(deps[i].name, if before[at].ref == "" then Cleaned(deps[i].ref) else before[at].ref)]
  {
    var names := KeptNames(self, deps[..i]);
    assert deps[..i + 1][..i] == deps[..i];
    KeptNamesDistinct(self, deps[..i]);
    forall k | 0 <= k < |names|
      ensures FirstRef(deps[..i + 1], names[k]) == if k == at && FirstRef(deps[..i], names[k]) == ""
        then Cleaned(deps[i].ref) else FirstRef(deps[..i], names[k])
    {
      FirstRefStep(deps, i, names[k]);
    }
  }

  lemma {:induction false} NewStep(self: string, deps: seq<Dependency>, i: nat)
    requires i < |deps| && Kept(self, deps[i]) && deps[i].name !in KeptNames(self, deps[..i])
    ensures KeptNames(self, deps[..i + 1]) == KeptNames(self, deps[..i]) + [deps[i].name]
    ensures Filtered(self, deps[..i + 1]) == Filtered(self, deps[..i]) + [Dependency(deps[i].name, Cleaned(deps[i].ref))]
  {
    var names := KeptNames(self, deps[..i]);
    assert deps[..i + 1][..i] == deps[..i];
    KeptNamesMean(self, deps[..i], deps[i].name);
    NoRef(deps[..i], deps[i].name);
    FirstRefStep(deps, i, deps[i].name);
    forall k | 0 <= k < |names|
      ensures FirstRef(deps[..i + 1], names[k]) == FirstRef(deps[..i], names[k])
    {
      FirstRefStep(deps, i, names[k]);
      assert names[k] in names;
    }
  }

  // ---- filteredDependencies ----

  /** One pass over the list: `index` remembers where a name stands in `out`, whose entry is updated in place
      when a later duplicate brings the first delivery branch. */
  method FilteredDependencies(self: string, deps: seq<Dependency>) returns (out: seq<Dependency>)
    ensures out == Filtered(self, deps)
  {
    out := [];
    var index: map<string, nat> := map[];
    for i := 0 to |deps|
      invariant out == Filtered(self, deps[..i])
      invariant Indexed(index, KeptNames(self, deps[..i]))
    {
      ghost var names := KeptNames(self, deps[..i]);
      assert deps[..i + 1][..i] == deps[..i];
      var dep := deps[i];
      if !SafeName(dep.name) || dep.name == self {
        DroppedStep(self, deps, i);
        continue;
      }
      var safe := DeliveryRefIsSafe(dep.ref);
      if dep.ref != "" && !safe {
        dep := dep.(ref := "");
      }
      if dep.name in index {
        var at := index[dep.name];
        RepeatedStep(self, deps, i, at);
        if out[at].ref == "" && dep.ref != "" {
          out := out[at := Dependency(dep.name, dep.ref)];
        }
        continue;
      }
      NewStep(self, deps, i);
      index := index[dep.name := |out|];
      out := out + [dep];
    }
    assert deps[..|deps|] == deps;
  }

  ghost predicate Indexed(index: map<string, nat>, names: seq<string>) {
    (forall name :: name in index <==> name in names)
    && forall name :: name in index ==> index[name] < |names| && names[index[name]] == name
  }

  // ---- the entry list of the checkout script ----

  function Entry(d: Dependency): string {
    d.name + (":" + d.ref)
  }

  /** strings.Join(entries, " "). */
  function EntryList(deps: seq<Dependency>): string {
    if deps == [] then ""
    else if |deps| == 1 then Entry(deps[0])
    else Entry(deps[0]) + (" " + EntryList(deps[1..]))
  }

  /** Where the first c stands; |text| when there is none. */
  function IndexOfChar(text: string, c: char): (i: nat)
    ensures i <= |text|
  {
    if text == "" || text[0] == c then 0 else IndexOfChar(text[1..], c) + 1
  }

  /** The words of the loop list. */
  function Words(text: string): seq<string>
    decreases |text|
  {
    var at := IndexOfChar(text, ' ');
    if text == "" then [] else if at == |text| then [text] else [text[..at]] + Words(text[at + 1..])
  }

  /** ${ENTRY%%:*} and ${ENTRY#*:}: before and after the first colon, or the whole word twice. */
  function Cut(entry: string): Dependency {
    var at := IndexOfChar(entry, ':');
    if at == |entry| then Dependency(entry, entry) else Dependency(entry[..at], entry[at + 1..])
  }

  /** What bash knows of a user in a tilde prefix: the home directory, if there is one. */
  type Homes = string -> Option<string>

  /** Tilde expansion of a word: of the part before its first slash. */
  function Expanded(homes: Homes, word: string): string {
    if word == "" || word[0] != '~' then word
    else
      var at := SlashAt(word);
      var home := homes(word[1..at]);
      if home.None? then word else home.value + word[at..]
  }

  function ReadAll(homes: Homes, words: seq<string>): seq<Dependency> {
    if words == [] then [] else [Cut(Expanded(homes, words[0]))] + ReadAll(homes, words[1..])
  }

  /** A word that starts a comment, which swallows the rest of the line and with it the loop. */
  predicate Comments(words: seq<string>) {
    exists i :: 0 <= i < |words| && words[i] != "" && words[i][0] == '#'
  }

  /** What the loop goes over; None is a script that bash does not accept. */
  function Decoded(homes: Homes, text: string): Option<seq<Dependency>> {
    if Comments(Words(text)) then None else Some(ReadAll(homes, Words(text)))
  }

  lemma {:induction false} IndexOfCharIs(before: string, c: char, rest: string)
    requires c !in before && (rest == "" || rest[0] == c)
    ensures IndexOfChar(before + rest, c) == |before|
    decreases |before|
  {
    if before == "" {
      assert before + rest == rest;
    } else {
      assert (before + rest)[1..] == before[1..] + rest;
      IndexOfCharIs(before[1..], c, rest);
    }
  }

  lemma {:induction false} IndexOfCharWithin(before: string, c: char, rest: string)
    requires c in before
    ensures IndexOfChar(before + rest, c) < |before|
    decreases |before|
  {
    assert (before + rest)[0] == before[0];
    if before[0] != c {
      assert (before + rest)[1..] == before[1..] + rest;
      IndexOfCharWithin(before[1..], c, rest);
    }
  }

  lemma {:induction false} IndexOfCharMeans(text: string, c: char)
    ensures var i := IndexOfChar(text, c); c !in text[..i] && (i < |text| <==> c in text) && (i < |text| ==> text[i] == c)
    decreases |text|
  {
    if text != "" && text[0] != c {
      IndexOfCharMeans(text[1..], c);
      var i := IndexOfChar(text[1..], c);
      assert text[..i + 1] == [text[0]] + text[1..][..i];
      assert text == [text[0]] + text[1..];
    }
  }

  lemma {:induction false} CutEntry(d: Dependency)
    requires ':' !in d.name
    ensures Cut(Entry(d)) == d
  {
    IndexOfCharIs(d.name, ':', ":" + d.ref);
    assert Entry(d)[..|d.name|] == d.name && Entry(d)[|d.name| + 1..] == d.ref;
  }

  lemma {:induction false} CutJoins(word: string)
    requires ':' in word
    ensures word == Entry(Cut(word)) && ':' !in Cut(word).name
  {
    IndexOfCharMeans(word, ':');
    var at := IndexOfChar(word, ':');
    hide IndexOfChar;
    assert word == word[..at] + (":" + word[at + 1..]);
  }

  lemma {:induction false} CutMeans(word: string, d: Dependency)
    requires ':' in word
    ensures Cut(word) == d <==> word == Entry(d) && ':' !in d.name
  {
    CutJoins(word);
    if ':' !in d.name {
      CutEntry(d);
    }
    hide Cut, Entry;
  }

  /** No user of that name, or one whose home directory is written the same. */
  predicate TildeStays(homes: Homes, name: string)
    requires name != ""
  {
    name[0] == '~' ==>
      var owner := name[..SlashAt(name)];
      homes(owner[1..]).None? || homes(owner[1..]) == Some(owner)
  }

  lemma {:induction false} SlashInFront(name: string, rest: string)
    requires '/' in name
    ensures SlashAt(name + rest) == SlashAt(name) < |name|
    decreases |name|
  {
    assert (name + rest)[0] == name[0];
    if name[0] != '/' {
      assert (name + rest)[1..] == name[1..] + rest;
      SlashInFront(name[1..], rest);
    }
  }

  lemma {:induction false} FrontReplaced(text: string, at: nat, front: string)
    requires at <= |text|
    ensures front + text[at..] == text <==> front == text[..at]
  {
    assert text[..at] + text[at..] == text;
    if front + text[at..] == text {
      assert |front| == at && (front + text[at..])[..at] == front;
    }
  }

  lemma {:induction false} ExpandedMeans(homes: Homes, d: Dependency)
    requires '/' in d.name
    ensures Expanded(homes, Entry(d)) == Entry(d) <==> TildeStays(homes, d.name)
    ensures ':' in Expanded(homes, Entry(d))
  {
    var e, at := Entry(d), SlashAt(d.name);
    SlashInFront(d.name, ":" + d.ref);
    assert e[0] == d.name[0] && e[|d.name|] == ':';
    if e[0] == '~' {
      assert e[..at] == d.name[..at] && e[1..at] == d.name[..at][1..];
      var home := homes(e[1..at]);
      if home.Some? {
        FrontReplaced(e, at, home.value);
        assert (home.value + e[at..])[|home.value| + (|d.name| - at)] == ':';
      }
    }
  }

  /** One entry comes back exactly when its name has no colon and no tilde prefix that bash replaces. */
  lemma {:induction false} EntryRoundTrip(homes: Homes, d: Dependency)
    requires '/' in d.name
    ensures Cut(Expanded(homes, Entry(d))) == d <==> ':' !in d.name && TildeStays(homes, d.name)
  {
    ExpandedMeans(homes, d);
    CutMeans(Expanded(homes, Entry(d)), d);
  }

  predicate Spaceless(deps: seq<Dependency>) {
    forall i :: 0 <= i < |deps| ==> ' ' !in deps[i].name && ' ' !in deps[i].ref
  }

  function Entries(deps: seq<Dependency>): seq<string> {
    if deps == [] then [] else [Entry(deps[0])] + Entries(deps[1..])
  }

  /** The first word and the words after the space. */
  lemma {:induction false} FirstWord(entry: string, rest: string)
    requires ' ' !in entry && entry != ""
    ensures Words(entry) == [entry] && Words(entry + (" " + rest)) == [entry] + Words(rest)
  {
    assert entry + "" == entry;
    IndexOfCharIs(entry, ' ', "");
    IndexOfCharIs(entry, ' ', " " + rest);
    var text := entry + (" " + rest);
    assert text[..|entry|] == entry && text[|entry| + 1..] == rest;
  }

  lemma {:induction false} WordsAreEntries(deps: seq<Dependency>)
    requires Spaceless(deps)
    ensures Words(EntryList(deps)) == Entries(deps)
    decreases |deps|
  {
    if deps != [] {
      assert ' ' !in Entry(deps[0]);
      FirstWord(Entry(deps[0]), EntryList(deps[1..]));
      WordsAreEntries(deps[1..]);
    }
  }

  predicate ReadsBack(homes: Homes, name: string)
    requires name != ""
  {
    ':' !in name && TildeStays(homes, name)
  }

  lemma {:induction false} ConsEqual(a: Dependency, x: seq<Dependency>, b: Dependency, y: seq<Dependency>)
    ensures [a] + x == [b] + y <==> a == b && x == y
  {
    assert ([a] + x)[0] == a && ([b] + y)[0] == b && ([a] + x)[1..] == x && ([b] + y)[1..] == y;
  }

  lemma {:induction false} ReadEntries(homes: Homes, deps: seq<Dependency>)
    requires forall i :: 0 <= i < |deps| ==> '/' in deps[i].name
    ensures ReadAll(homes, Entries(deps)) == deps <==> forall i :: 0 <= i < |deps| ==> ReadsBack(homes, deps[i].name)
    decreases |deps|
  {
    if deps != [] {
      var first, rest := deps[0], deps[1..];
      assert forall i :: 0 <= i < |rest| ==> rest[i] == deps[i + 1];
      ReadEntries(homes, rest);
      EntryRoundTrip(homes, first);
      assert Entries(deps)[0] == Entry(first) && Entries(deps)[1..] == Entries(rest);
      ConsEqual(Cut(Expanded(homes, Entry(first))), ReadAll(homes, Entries(rest)), first, rest);
      assert deps == [first] + rest;
      AllOfTwo(homes, deps);
      hide Cut, Expanded, ReadsBack, TildeStays, Entry;
    }
  }

  lemma {:induction false} AllOfTwo(homes: Homes, deps: seq<Dependency>)
    requires deps != [] && forall i :: 0 <= i < |deps| ==> deps[i].name != ""
    ensures (forall i :: 0 <= i < |deps| ==> ReadsBack(homes, deps[i].name))
      <==> ReadsBack(homes, deps[0].name) && forall i :: 0 <= i < |deps[1..]| ==> ReadsBack(homes, deps[1..][i].name)
  {
    hide ReadsBack;
    assert forall i :: 0 < i < |deps| ==> deps[i] == deps[1..][i - 1];
  }

  lemma {:induction false} EntriesComment(deps: seq<Dependency>)
    requires forall i :: 0 <= i < |deps| ==> deps[i].name != ""
    ensures |Entries(deps)| == |deps| && forall i :: 0 <= i < |deps| ==> Entries(deps)[i] == Entry(deps[i])
    ensures Comments(Entries(deps)) <==> exists i :: 0 <= i < |deps| && deps[i].name[0] == '#'
    decreases |deps|
  {
    EntriesAre(deps);
    forall i | 0 <= i < |deps|
      ensures Entries(deps)[i] != "" && Entries(deps)[i][0] == deps[i].name[0]
    {
    }
  }

  lemma {:induction false} EntriesAre(deps: seq<Dependency>)
    ensures |Entries(deps)| == |deps| && forall i :: 0 <= i < |deps| ==> Entries(deps)[i] == Entry(deps[i])
    decreases |deps|
  {
    if deps != [] {
      EntriesAre(deps[1..]);
    }
  }

  /** The loop goes over exactly the filtered list if and only if no repository name has a colon, starts with '#', or
      starts with '~' and the name of a user whose home directory bash puts there. */
  lemma {:induction false} ListRoundTrip(homes: Homes, self: string, deps: seq<Dependency>)
    ensures forall i :: 0 <= i < |Filtered(self, deps)| ==> Filtered(self, deps)[i].name != ""
    ensures var kept := Filtered(self, deps);
      Decoded(homes, EntryList(kept)) == Some(kept)
      <==> forall i :: 0 <= i < |kept| ==>
             ':' !in kept[i].name && kept[i].name[0] != '#' && TildeStays(homes, kept[i].name)
  {
    var kept := Filtered(self, deps);
    forall i | 0 <= i < |kept|
      ensures ' ' !in kept[i].name && ' ' !in kept[i].ref && '/' in kept[i].name
    {
      FilteredIsSafe(self, deps, i);
      SafeNameHasOneSlash(kept[i].name);
    }
    WordsAreEntries(kept);
    ReadEntries(homes, kept);
    EntriesComment(kept);
    hide Filtered, EntryList, Words, Entries, ReadAll, Comments, TildeStays;
  }

  lemma {:induction false} FilteredIsSafe(self: string, deps: seq<Dependency>, i: nat)
    requires i < |Filtered(self, deps)|
    ensures var d := Filtered(self, deps)[i];
      SafeName(d.name) && d.name != self && (d.ref == "" || SafeRef(d.ref))
      && ' ' !in d.name && ' ' !in d.ref && '\'' !in d.name && '\'' !in d.ref
  {
    var names := KeptNames(self, deps);
    var d := Filtered(self, deps)[i];
    assert d.name == names[i] && names[i] in names;
    KeptNamesMean(self, deps, d.name);
    var j := FirstRefMeans(deps, d.name);
    assert SHELL_CHARACTERS[0] == ' ' && SHELL_CHARACTERS[4] == '\'';
  }

  lemma {:induction false} SlashAtIs(before: string, after: string)
    requires '/' !in before
    ensures SlashAt(before + ("/" + after)) == |before|
    decreases |before|
  {
    var name := before + ("/" + after);
    if before != "" {
      assert name[0] == before[0] && name[1..] == before[1..] + ("/" + after);
      SlashAtIs(before[1..], after);
    }
  }

  predicate PlainCharacter(c: char) {
    'a' <= c <= 'z' || c in {'_', ':', '/'}
  }

  lemma {:induction false} PlainNameIsSafe(owner: string, name: string)
    requires owner != "" && name != "" && '/' !in owner && '/' !in name
    requires forall i :: 0 <= i < |owner| ==> PlainCharacter(owner[i])
    requires forall i :: 0 <= i < |name| ==> PlainCharacter(name[i])
    ensures SafeName(owner + ("/" + name))
  {
    var full := owner + ("/" + name);
    SlashAtIs(owner, name);
    assert full[|owner| + 1..] == name;
    forall i | 0 <= i < |full|
      ensures full[i] !in SHELL_CHARACTERS
    {
      assert PlainCharacter(full[i]);
      PlainIsNotShell(full[i]);
    }
  }

  lemma {:induction false} PlainIsNotShell(c: char)
    requires PlainCharacter(c)
    ensures c !in SHELL_CHARACTERS
  {
  }

  lemma {:induction false} OneDependency(self: string, d: Dependency)
    requires Kept(self, d) && !SafeRef(d.ref)
    ensures Filtered(self, [d]) == [Dependency(d.name, "")]
  {
    assert [d][..0] == [];
    assert KeptNames(self, [d]) == [] + [d.name];
    assert FirstRef([d], d.name) == "";
  }

  /** A safe name with a colon: the list does not come back. */
  lemma {:induction false} ColonBreaksList(homes: Homes)
    ensures SafeName("a:b" + ("/" + "c"))
    ensures var kept := Filtered("", [Dependency("a:b" + ("/" + "c"), "")]);
      kept == [Dependency("a:b" + ("/" + "c"), "")] && Decoded(homes, EntryList(kept)) != Some(kept)
  {
    var d := Dependency("a:b" + ("/" + "c"), "");
    PlainNameIsSafe("a:b", "c");
    OneDependency("", d);
    ListRoundTrip(homes, "", [d]);
    assert d.name[1] == ':';
    assert Filtered("", [d])[0].name == d.name;
  }

  // ---- directory names ----

  /** depSlug: every slash becomes an underscore. */
  function Slug(name: string): string {
    seq(|name|, i requires 0 <= i < |name| => if name[i] == '/' then '_' else name[i])
  }

  predicate OneSlash(name: string, at: nat) {
    at < |name| && forall i :: 0 <= i < |name| ==> (name[i] == '/' <==> i == at)
  }

  /** The slash of one name stands at an underscore of the other, and they agree everywhere else. */
  predicate Crossed(a: string, i: nat, b: string, j: nat)
    requires i < |a| && j < |b|
  {
    |a| == |b| && i != j && b[i] == '_' && a[j] == '_'
    && forall k :: 0 <= k < |a| && k != i && k != j ==> a[k] == b[k]
  }

  /** Exactly when two repositories share a checkout directory. */
  lemma {:induction false} SameSlug(a: string, i: nat, b: string, j: nat)
    requires OneSlash(a, i) && OneSlash(b, j)
    ensures Slug(a) == Slug(b) <==> a == b || Crossed(a, i, b, j)
  {
    assert a[i] == '/' && b[j] == '/';
    if Slug(a) == Slug(b) {
      assert |a| == |Slug(a)| == |Slug(b)| == |b|;
      assert Slug(a)[i] == Slug(b)[i] && Slug(a)[j] == Slug(b)[j];
      forall k | 0 <= k < |a| && k != i && k != j
        ensures a[k] == b[k]
      {
        assert Slug(a)[k] == Slug(b)[k] && a[k] != '/' && b[k] != '/';
      }
    } else if |a| == |b| {
      var k :| 0 <= k < |a| && Slug(a)[k] != Slug(b)[k];
    }
  }

  lemma {:induction false} SafeNameHasOneSlash(name: string)
    requires SafeName(name)
    ensures OneSlash(name, SlashAt(name))
  {
    var at := SlashAt(name);
    forall i | 0 <= i < |name|
      ensures name[i] == '/' <==> i == at
    {
      assert i > at ==> name[at + 1..][i - at - 1] == name[i];
    }
  }

  /** Owners without an underscore keep the directories apart. */
  lemma {:induction false} SlugInjective(a: string, b: string)
    requires SafeName(a) && SafeName(b) && Slug(a) == Slug(b)
    requires '_' !in a[..SlashAt(a)] && '_' !in b[..SlashAt(b)]
    ensures a == b
  {
    var i, j := SlashAt(a), SlashAt(b);
    SafeNameHasOneSlash(a);
    SafeNameHasOneSlash(b);
    SameSlug(a, i, b, j);
    assert forall k :: 0 <= k < i ==> a[k] in a[..i];
    assert forall k :: 0 <= k < j ==> b[k] in b[..j];
  }

  /** Two safe names whose owners hold underscores and which share a directory. */
  lemma {:induction false} UnderscoresCollide()
    ensures var a, b := "a_b" + ("/" + "c"), "a" + ("/" + "b_c");
      SafeName(a) && SafeName(b) && a != b && Slug(a) == Slug(b)
  {
    var a, b := "a_b" + ("/" + "c"), "a" + ("/" + "b_c");
    PlainNameIsSafe("a_b", "c");
    PlainNameIsSafe("a", "b_c");
    SlashAtIs("a_b", "c");
    SlashAtIs("a", "b_c");
    SafeNameHasOneSlash(a);
    SafeNameHasOneSlash(b);
    assert a[1] == '_' && b[1] == '/';
    assert Crossed(a, 3, b, 1);
    SameSlug(a, 3, b, 1);
  }
}
