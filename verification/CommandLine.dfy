/** The command line between the two processes: the coordinator prints one string, the host executor splits it
    back into argv. Four long stretches of the fixed text of the delivery script are parameters. */
module CommandLine {
  import opened Text
  import Dependencies

  // ---- the splitter ----

  datatype Split = Split(parts: seq<string>, current: string, inWord: bool, quote: Option<char>)

  predicate Separator(c: char) {
    c in {' ', '\t', '\n', '\r'}
  }

  function Step(st: Split, c: char): Split {
    if st.quote.Some? then
      if c == st.quote.value then st.(quote := None) else st.(current := st.current + [c])
    else if c == '\'' || c == '"' then st.(quote := Some(c), inWord := true)
    else if Separator(c) then
      if st.inWord then Split(st.parts + [st.current], "", false, None) else st
    else st.(current := st.current + [c], inWord := true)
  }

  function Steps(st: Split, text: string): Split
    decreases |text|
  {
    if text == "" then st else Steps(Step(st, text[0]), text[1..])
  }

  const START := Split([], "", false, None)

  /** None is the unmatched quote. */
  function Finish(st: Split): Option<seq<string>> {
    if st.quote.Some? then None else Some(if st.inWord then st.parts + [st.current] else st.parts)
  }

  function SplitCommand(command: string): Option<seq<string>> {
    Finish(Steps(START, command))
  }

  /** splitCommand. */
  method SplitIntoWords(command: string) returns (result: Option<seq<string>>)
    ensures result == SplitCommand(command)
  {
    var parts: seq<string>, current, inWord := [], "", false;
    var quote: Option<char> := None;
    for i := 0 to |command|
      invariant Steps(START, command) == Steps(Split(parts, current, inWord, quote), command[i..])
    {
      var c := command[i];
      assert command[i..][0] == c && command[i..][1..] == command[i + 1..];
      if quote.Some? {
        if c == quote.value {
          quote := None;
        } else {
          current := current + [c];
        }
      } else if c == '\'' || c == '"' {
        quote := Some(c);
        inWord := true;
      } else if c == ' ' || c == '\t' || c == '\n' || c == '\r' {
        if inWord {
          parts := parts + [current];
          current := "";
          inWord := false;
        }
      } else {
        current := current + [c];
        inWord := true;
      }
    }
    if quote.Some? {
      return None;
    }
    if inWord {
      parts := parts + [current];
    }
    return Some(parts);
  }

  // ---- quoting and splitting back ----

  // One word with the whitespace printed before it.
  datatype Spaced = Spaced(space: string, word: string)

  function Quoted(word: string): string {
    "'" + (word + "'")
  }

  function Printed(words: seq<Spaced>): string {
    if words == [] then "" else words[0].space + (Quoted(words[0].word) + Printed(words[1..]))
  }

  function WordsOf(words: seq<Spaced>): seq<string> {
    if words == [] then [] else [words[0].word] + WordsOf(words[1..])
  }

  predicate AllSeparators(text: string) {
    forall i :: 0 <= i < |text| ==> Separator(text[i])
  }

  predicate Unquoted(text: string) {
    '\'' !in text
  }

  /** Quote-free words with only whitespace between them, at least one character of it after the first word. */
  predicate Printable(words: seq<Spaced>, first: bool)
    decreases |words|
  {
    words == []
    || (AllSeparators(words[0].space) && (first || words[0].space != "") && Unquoted(words[0].word)
        && Printable(words[1..], false))
  }

  lemma {:induction false} StepsAppend(st: Split, a: string, b: string)
    ensures Steps(st, a + b) == Steps(Steps(st, a), b)
    decreases |a|
  {
    if a == "" {
      assert a + b == b;
    } else {
      assert (a + b)[0] == a[0] && (a + b)[1..] == a[1..] + b;
      StepsAppend(Step(st, a[0]), a[1..], b);
    }
  }

  /** Inside single quotes everything but a single quote is copied. */
  lemma {:induction false} CopiesQuoted(st: Split, word: string)
    requires st.quote == Some('\'') && Unquoted(word)
    ensures Steps(st, word) == st.(current := st.current + word)
    decreases |word|
  {
    if word == "" {
      assert st.current + word == st.current;
    } else {
      assert word[0] in word;
      CopiesQuoted(st.(current := st.current + [word[0]]), word[1..]);
      assert st.current + [word[0]] + word[1..] == st.current + word;
    }
  }

  lemma {:induction false} ReadsQuoted(st: Split, word: string)
    requires st.quote.None? && Unquoted(word)
    ensures Steps(st, Quoted(word)) == st.(current := st.current + word, inWord := true)
  {
    var inside := st.(quote := Some('\''), inWord := true);
    assert Quoted(word)[0] == '\'' && Quoted(word)[1..] == word + "'";
    CopiesQuoted(inside, word);
    StepsAppend(inside, word, "'");
    var st' := Steps(inside, word);
    assert "'"[1..] == "";
    assert Steps(st', "'") == Steps(Step(st', '\''), "");
  }

  lemma {:induction false} SkipsSpace(st: Split, space: string)
    requires st.quote.None? && AllSeparators(space) && (st.inWord || st.current == "")
    ensures Steps(st, space)
      == if space != "" && st.inWord then Split(st.parts + [st.current], "", false, None) else st
    decreases |space|
  {
    if space != "" {
      SkipsSpace(Step(st, space[0]), space[1..]);
    }
  }

  lemma {:induction false} ReadsWords(st: Split, words: seq<Spaced>, first: bool)
    requires st.quote.None? && Printable(words, first) && (first <==> !st.inWord) && (st.inWord || st.current == "")
    ensures Finish(Steps(st, Printed(words)))
      == Some((if st.inWord then st.parts + [st.current] else st.parts) + WordsOf(words))
    decreases |words|
  {
    var sofar := if st.inWord then st.parts + [st.current] else st.parts;
    if words == [] {
      assert sofar + WordsOf(words) == sofar;
    } else {
      var space, word, rest := words[0].space, words[0].word, Printed(words[1..]);
      StepsAppend(st, space, Quoted(word) + rest);
      SkipsSpace(st, space);
      var before := Split(sofar, "", false, None);
      assert Steps(st, space) == before;
      StepsAppend(before, Quoted(word), rest);
      ReadsQuoted(before, word);
      assert "" + word == word;
      ReadsWords(Split(sofar, word, true, None), words[1..], false);
      assert sofar + [word] + WordsOf(words[1..]) == sofar + WordsOf(words);
    }
  }

  /** Every list of words without single quotes, the empty word included, comes back from any layout. */
  lemma {:induction false} SplitRoundTrip(words: seq<Spaced>)
    requires Printable(words, true)
    ensures SplitCommand(Printed(words)) == Some(WordsOf(words))
  {
    ReadsWords(START, words, true);
    assert [] + WordsOf(words) == WordsOf(words);
  }

  // ---- the one quoted script ----

  function Size(parts: seq<string>): nat {
    if parts == [] then 0 else Size(parts[..|parts| - 1]) + |parts[|parts| - 1]|
  }

  function Weight(st: Split): nat {
    Size(st.parts) + |st.current|
  }

  /** A character is written at most once. */
  lemma {:induction false} StepWeighs(st: Split, c: char)
    ensures Weight(Step(st, c)) <= Weight(st) + 1
    ensures c == '\'' && Step(st, c).quote.None? ==> Weight(Step(st, c)) <= Weight(st)
  {
    assert (st.parts + [st.current])[..|st.parts|] == st.parts;
  }

  lemma {:induction false} StepsWeigh(st: Split, text: string)
    ensures Weight(Steps(st, text)) <= Weight(st) + |text|
    decreases |text|
  {
    if text != "" {
      StepWeighs(st, text[0]);
      StepsWeigh(Step(st, text[0]), text[1..]);
    }
  }

  function BashCommand(script: string): string {
    "bash -c '" + (script + "'")
  }

  const AFTER_PREFIX := Split(["bash", "-c"], "", true, Some('\''))

  lemma {:induction false} OneStep(st: Split, c: char)
    ensures Steps(st, [c]) == Step(st, c)
  {
    assert [c][1..] == "";
  }

  /** An ordinary word and the space after it. */
  lemma {:induction false} ReadsBareWord(parts: seq<string>, word: string)
    requires word != "" && forall i :: 0 <= i < |word| ==> !Separator(word[i]) && word[i] != '\'' && word[i] != '"'
    ensures Steps(Split(parts, "", false, None), word + " ") == Split(parts + [word], "", false, None)
  {
    var st := Split(parts, "", false, None);
    ReadsBare(st, word);
    StepsAppend(st, word, " ");
    assert "" + word == word;
    OneStep(Split(parts, word, true, None), ' ');
  }

  lemma {:induction false} ReadsPrefix(rest: string)
    ensures Steps(START, "bash -c '" + rest) == Steps(AFTER_PREFIX, rest)
  {
    ReadsBareWord([], "bash");
    ReadsBareWord(["bash"], "-c");
    var bash, c, quote := "bash" + " ", "-c" + " ", "'" + rest;
    assert "bash -c '" + rest == bash + (c + quote);
    assert [] + ["bash"] == ["bash"] && ["bash"] + ["-c"] == ["bash", "-c"];
    StepsAppend(START, bash, c + quote);
    StepsAppend(Split(["bash"], "", false, None), c, quote);
    assert quote[0] == '\'' && quote[1..] == rest;
  }

  /** Outside quotes a run of ordinary characters is one word. */
  lemma {:induction false} ReadsBare(st: Split, word: string)
    requires st.quote.None? && forall i :: 0 <= i < |word| ==> !Separator(word[i]) && word[i] != '\'' && word[i] != '"'
    ensures Steps(st, word) == st.(current := st.current + word, inWord := st.inWord || word != "")
    decreases |word|
  {
    if word == "" {
      assert st.current + word == st.current;
    } else {
      ReadsBare(Step(st, word[0]), word[1..]);
      assert st.current + [word[0]] + word[1..] == st.current + word;
    }
  }

  function QuoteAt(text: string): (i: nat)
    ensures i <= |text| && Unquoted(text[..i]) && (i < |text| ==> text[i] == '\'')
  {
    if text == "" || text[0] == '\'' then 0
    else
      var i := QuoteAt(text[1..]);
      assert text[..i + 1] == [text[0]] + text[1..][..i];
      i + 1
  }

  lemma {:induction false} ReadsCommand(script: string)
    ensures Steps(START, BashCommand(script)) == Step(Steps(AFTER_PREFIX, script), '\'')
  {
    ReadsPrefix(script + "'");
    StepsAppend(AFTER_PREFIX, script, "'");
    OneStep(Steps(AFTER_PREFIX, script), '\'');
  }

  /** The stored command splits into bash, -c and the script exactly when the script has no single quote. */
  lemma {:induction false} BashRoundTrip(script: string)
    ensures SplitCommand(BashCommand(script)) == Some(["bash", "-c", script]) <==> Unquoted(script)
  {
    if Unquoted(script) {
      ReadsCommand(script);
      CopiesQuoted(AFTER_PREFIX, script);
      assert "" + script == script;
      assert ["bash", "-c"] + [script] == ["bash", "-c", script];
    } else {
      QuoteLosesText(script);
    }
  }

  lemma {:induction false} SizeOfCommand(script: string)
    ensures Size(["bash", "-c", script]) == 6 + |script|
  {
    assert ["bash", "-c", script][..2] == ["bash", "-c"] && ["bash", "-c"][..1] == ["bash"] && ["bash"][..0] == [];
  }

  lemma {:induction false} QuoteLosesText(script: string)
    requires !Unquoted(script)
    ensures SplitCommand(BashCommand(script)) != Some(["bash", "-c", script])
  {
    var st := Steps(AFTER_PREFIX, script);
    assert script[..|script|] == script;
    ReadsCommand(script);
    LosesOne(script, QuoteAt(script));
    StepWeighs(st, '\'');
    SizeOfCommand(script);
    if Step(st, '\'').quote.None? {
      ResultWeighs(Step(st, '\''));
    }
  }

  lemma {:induction false} ResultWeighs(st: Split)
    requires st.quote.None?
    ensures Size(Finish(st).value) <= Weight(st)
  {
    assert (st.parts + [st.current])[..|st.parts|] == st.parts;
  }

  lemma {:induction false} LosesOne(script: string, i: nat)
    requires i < |script| && Unquoted(script[..i]) && script[i] == '\''
    ensures Weight(Steps(AFTER_PREFIX, script)) < 6 + |script|
  {
    var before, rest := script[..i], script[i..];
    assert script == before + rest;
    StepsAppend(AFTER_PREFIX, before, rest);
    CopiesQuoted(AFTER_PREFIX, before);
    assert "" + before == before;
    var st := AFTER_PREFIX.(current := before);
    StepsWeigh(Step(st, '\''), rest[1..]);
    assert Weight(Step(st, '\'')) == Weight(st) == 6 + i by {
      assert ["bash", "-c"][..1] == ["bash"] && ["bash"][..0] == [];
    }
  }

  // ---- the delivery command ----

  /** sanitizeSingleQuoted: five characters become spaces, all others stay. */
  function Sanitized(text: string): (s: string)
    ensures |s| == |text|
    ensures forall i :: 0 <= i < |s| ==> s[i] !in {'\'', '"', '`', '$', '\0'}
    ensures forall i :: 0 <= i < |s| ==> s[i] == text[i] || (s[i] == ' ' && text[i] in {'\'', '"', '`', '$', '\0'})
  {
    seq(|text|, i requires 0 <= i < |text| => if text[i] in {'\'', '"', '`', '$', '\0'} then ' ' else text[i])
  }

  datatype Kind = Codex | Claude | Unsupported

  // The four long stretches of fixed text; the prompt's own section is sanitized before it is used.
  datatype Template = Template(section: string, checkout: string, loopBody: string, afterAgent: string, push: string)

  predicate PlainText(t: Template) {
    Unquoted(t.checkout) && Unquoted(t.loopBody) && Unquoted(t.afterAgent) && Unquoted(t.push)
  }

  // The short ones, in pieces.
  const CODEX_MODEL := ["codex exec -c ", "model_provider=minimax", " -c model="]
  const CODEX_PROMPT := [" --skip-git-repo-check", " --dangerously-bypass-", "approvals-and-sandbox", " \""]
  const CLAUDE_PROMPT := ["claude -p \""]
  const CLAUDE_MODEL := ["\" --model "]
  const CLAUDE_END := [" --dangerously-", "skip-permissions"]
  const HEAD := ["set -e\n", "T=${REPOMESH_GH_TOKEN", ":?missing installation ", "token}\nR="]
  const BRANCH := ["\nB=repomesh/auto-"]
  const LOOP_HEAD := ["DEPS=\"$PWD/_deps\"\n", "mkdir -p \"$DEPS\"\n", "for ENTRY in "]
  const WORK := ["cd \"$WORK\"\n", "git config user.name ", "\"repomesh-bot[bot]\"\n", "git config user.email ",
                 "\"repomesh-bot@users.", "noreply.github.com\"\n", "set +e\n"]
  const COMMIT := [": "]
  const BODY := ["\\\",\\\"head\\\":\\\"$B\\\",", "\\\"base\\\":\\\"main\\\",", "\\\"body\\\":\\\"RepoMesh ",
                 "automated delivery ", "for issue "]
  const END := ["\\\"}\" > pr.json\n", "echo REPO_PR_CREATED=", "$R:$B\n", "PR_PATH=$(grep -o ", "\"github.com/[^/]*/",
                "[^/]*/pull/[0-9]*\" ", "pr.json | head -1)\n", "echo REPO_PR_URL=", "https://$PR_PATH"]

  const CONTRACT := "## Execution workspace contract\n\nRepository: "
  const SKILL_TITLE := "## 你的技能（技能库原文）\n\n"
  const SKILL_END := "\n\n---\n\n"
  const FALLBACK :=
    "Complete the assigned task in this repository. Implement the requirement and run the existing checks."

  datatype Job = Job(
    kind: Kind, model: string, instruction: string, repository: string, attempt: string, title: string,
    issue: string, skill: string, dependencies: seq<Dependencies.Dependency>)

  function Prompt(t: Template, j: Job): string {
    var trimmed := TrimSpace(j.instruction);
    var requirement := if trimmed == "" then FALLBACK else trimmed;
    var prompt := CONTRACT + (j.repository + (t.section + requirement));
    Sanitized(if TrimSpace(j.skill) == "" then prompt else SKILL_TITLE + (j.skill + (SKILL_END + prompt)))
  }

  function SafeTitle(title: string): string {
    if |Sanitized(title)| > 60 then Sanitized(title)[..60] else Sanitized(title)
  }

  function Join(parts: seq<string>): string {
    if parts == [] then "" else parts[0] + Join(parts[1..])
  }

  function AgentLine(t: Template, j: Job): string {
    if j.kind.Codex? then Join([Join(CODEX_MODEL), j.model, Join(CODEX_PROMPT), Prompt(t, j), "\""])
    else Join([Join(CLAUDE_PROMPT), Prompt(t, j), Join(CLAUDE_MODEL), j.model, Join(CLAUDE_END)])
  }

  /** depCheckoutScript. */
  function Checkout(t: Template, j: Job): string {
    var kept := Dependencies.Filtered(j.repository, j.dependencies);
    if kept == [] then "" else Join(LOOP_HEAD) + (Dependencies.EntryList(kept) + t.loopBody)
  }

  function Parts(t: Template, repository: string, attempt: string, checkout: string, agent: string, issue: string,
                 title: string): seq<string>
  {
    [Join(HEAD), repository, Join(BRANCH), attempt, t.checkout, checkout, Join(WORK), agent, t.afterAgent,
     issue, Join(COMMIT), title, t.push, title, Join(BODY), issue, Join(END)]
  }

  function ScriptParts(t: Template, j: Job): seq<string> {
    Parts(t, j.repository, j.attempt, Checkout(t, j), AgentLine(t, j), j.issue, SafeTitle(j.title))
  }

  function Script(t: Template, j: Job): string {
    Join(ScriptParts(t, j))
  }

  /** buildAgentCommand; None is the unsupported agent kind. */
  function BuiltCommand(t: Template, j: Job): Option<string> {
    if j.kind.Unsupported? then None else Some(BashCommand(Script(t, j)))
  }

  predicate AllUnquoted(parts: seq<string>) {
    forall i :: 0 <= i < |parts| ==> Unquoted(parts[i])
  }

  lemma {:induction false} JoinUnquoted(parts: seq<string>)
    ensures Unquoted(Join(parts)) <==> AllUnquoted(parts)
    decreases |parts|
  {
    if parts != [] {
      JoinUnquoted(parts[1..]);
      assert AllUnquoted(parts) <==> Unquoted(parts[0]) && AllUnquoted(parts[1..]) by {
        assert forall i :: 0 < i < |parts| ==> parts[i] == parts[1..][i - 1];
      }
    }
  }

  lemma {:induction false} EntriesUnquoted(deps: seq<Dependencies.Dependency>)
    requires forall i :: 0 <= i < |deps| ==> Unquoted(deps[i].name) && Unquoted(deps[i].ref)
    ensures Unquoted(Dependencies.EntryList(deps))
    decreases |deps|
  {
    if deps != [] {
      EntriesUnquoted(deps[1..]);
    }
  }

  // The fixed pieces hold no single quote.

  lemma {:induction false} CodexUnquoted()
    ensures Unquoted(Join(CODEX_MODEL)) && Unquoted(Join(CODEX_PROMPT))
  {
    hide Join;
    JoinUnquoted(CODEX_MODEL);
    JoinUnquoted(CODEX_PROMPT);
  }

  lemma {:induction false} ClaudeUnquoted()
    ensures Unquoted(Join(CLAUDE_PROMPT)) && Unquoted(Join(CLAUDE_MODEL)) && Unquoted(Join(CLAUDE_END))
  {
    hide Join;
    JoinUnquoted(CLAUDE_PROMPT);
    JoinUnquoted(CLAUDE_MODEL);
    JoinUnquoted(CLAUDE_END);
  }

  lemma {:induction false} HeadUnquoted()
    ensures Unquoted(Join(HEAD)) && Unquoted(Join(BRANCH)) && Unquoted(Join(LOOP_HEAD))
  {
    hide Join;
    JoinUnquoted(HEAD);
    JoinUnquoted(BRANCH);
    JoinUnquoted(LOOP_HEAD);
  }

  lemma {:induction false} WorkUnquoted()
    ensures Unquoted(Join(WORK)) && Unquoted(Join(COMMIT))
  {
    hide Join;
    JoinUnquoted(WORK);
    JoinUnquoted(COMMIT);
  }

  lemma {:induction false} EndStartsUnquoted(i: nat)
    requires i < 4
    ensures Unquoted(END[i])
  {
  }

  lemma {:induction false} EndStopsUnquoted(i: nat)
    requires 4 <= i < |END|
    ensures Unquoted(END[i])
  {
  }

  lemma {:induction false} EndUnquoted()
    ensures Unquoted(Join(END))
  {
    hide Join, Unquoted;
    forall i | 0 <= i < |END|
      ensures Unquoted(END[i])
    {
      if i < 4 {
        EndStartsUnquoted(i);
      } else {
        EndStopsUnquoted(i);
      }
    }
    JoinUnquoted(END);
  }

  lemma {:induction false} BodyUnquoted()
    ensures Unquoted(Join(BODY))
  {
    hide Join;
    JoinUnquoted(BODY);
  }

  /** The filtered dependencies never bring a quote into the script. */
  lemma {:induction false} CheckoutUnquoted(t: Template, j: Job)
    requires PlainText(t)
    ensures Unquoted(Checkout(t, j))
  {
    var kept := Dependencies.Filtered(j.repository, j.dependencies);
    forall i | 0 <= i < |kept|
      ensures Unquoted(kept[i].name) && Unquoted(kept[i].ref)
    {
      Dependencies.FilteredIsSafe(j.repository, j.dependencies, i);
    }
    EntriesUnquoted(kept);
    HeadUnquoted();
  }

  predicate PlainIds(j: Job) {
    Unquoted(j.model) && Unquoted(j.repository) && Unquoted(j.attempt) && Unquoted(j.issue)
  }

  lemma {:induction false} PartsUnquoted(t: Template, repository: string, attempt: string, checkout: string,
                                         agent: string, issue: string, title: string)
    requires PlainText(t) && Unquoted(checkout) && Unquoted(title)
    ensures AllUnquoted(Parts(t, repository, attempt, checkout, agent, issue, title))
      <==> Unquoted(repository) && Unquoted(attempt) && Unquoted(agent) && Unquoted(issue)
  {
    hide Join, Unquoted;
    HeadUnquoted();
    WorkUnquoted();
    BodyUnquoted();
    EndUnquoted();
    var parts := Parts(t, repository, attempt, checkout, agent, issue, title);
    assert parts[1] == repository && parts[3] == attempt && parts[7] == agent && parts[9] == issue;
  }

  lemma {:induction false} AgentLineUnquoted(t: Template, j: Job)
    ensures Unquoted(AgentLine(t, j)) <==> Unquoted(j.model)
  {
    var prompt := Prompt(t, j);
    assert Unquoted(prompt) && Unquoted("\"");
    CodexUnquoted();
    ClaudeUnquoted();
    hide Join, Unquoted, Prompt;
    var codex := [Join(CODEX_MODEL), j.model, Join(CODEX_PROMPT), prompt, "\""];
    var claude := [Join(CLAUDE_PROMPT), prompt, Join(CLAUDE_MODEL), j.model, Join(CLAUDE_END)];
    assert codex[1] == j.model && claude[3] == j.model;
    JoinUnquoted(codex);
    JoinUnquoted(claude);
  }

  lemma {:induction false} ScriptUnquoted(t: Template, j: Job)
    requires PlainText(t)
    ensures Unquoted(Script(t, j)) <==> PlainIds(j)
  {
    CheckoutUnquoted(t, j);
    AgentLineUnquoted(t, j);
    JoinUnquoted(ScriptParts(t, j));
    PartsUnquoted(t, j.repository, j.attempt, Checkout(t, j), AgentLine(t, j), j.issue, SafeTitle(j.title));
  }

  /** Whatever the instruction, title, skill text and dependencies: the executor gets exactly bash, -c and the
      script if and only if model, repository, attempt and issue have no single quote. */
  lemma {:induction false} CommandRoundTrip(t: Template, j: Job)
    requires PlainText(t) && !j.kind.Unsupported?
    ensures SplitCommand(BuiltCommand(t, j).value) == Some(["bash", "-c", Script(t, j)]) <==> PlainIds(j)
  {
    BashRoundTrip(Script(t, j));
    ScriptUnquoted(t, j);
  }

  // ---- what the script says ----

  /** The script: the executor's third word. */
  function ThirdWord(words: Option<seq<string>>): string {
    if words.Some? && |words.value| == 3 then words.value[2] else ""
  }

  /** What the executor runs. The repository is assigned to R and the attempt's branch to B; one loop goes over the
      filtered dependencies when there are any; the program of the kind gets the model behind its flag and one argument
      in double quotes, which nothing in it closes: the skill text when there is one, the contract with the repository,
      and the instruction or, exactly when that is blank, the fixed sentence; issue and title follow in the commit and
      in the pull request. */
  lemma {:induction false} CommandSays(t: Template, j: Job)
    requires PlainText(t) && PlainIds(j) && !j.kind.Unsupported?
    ensures var skill := if TrimSpace(j.skill) == "" then ""
                         else Sanitized(SKILL_TITLE) + (Sanitized(j.skill) + Sanitized(SKILL_END));
      var contract := Sanitized(CONTRACT) + (Sanitized(j.repository) + Sanitized(t.section));
      var requirement := if TrimSpace(j.instruction) == "" then FALLBACK else TrimSpace(j.instruction);
      var told := skill + (contract + Sanitized(requirement));
      var agent := if j.kind.Codex? then Join(CODEX_MODEL) + (j.model + (Join(CODEX_PROMPT) + (told + "\"")))
                   else Join(CLAUDE_PROMPT) + (told + (Join(CLAUDE_MODEL) + (j.model + Join(CLAUDE_END))));
      var kept := Dependencies.Filtered(j.repository, j.dependencies);
      var loop := if kept == [] then "" else Join(LOOP_HEAD) + (Dependencies.EntryList(kept) + t.loopBody);
      var title := if |j.title| > 60 then Sanitized(j.title[..60]) else Sanitized(j.title);
      '"' !in told && ThirdWord(SplitCommand(BuiltCommand(t, j).value)) ==
        Join(HEAD) + (j.repository + (Join(BRANCH) + (j.attempt + (t.checkout + (loop + (Join(WORK) + (agent
        + (t.afterAgent + (j.issue + (Join(COMMIT) + (title + (t.push + (title + (Join(BODY) + (j.issue
        + Join(END))))))))))))))))
  {
    LoopIs(t, j);
    TitleIs(j.title);
    hide *;
    LineIs(t, j);
    ToldIsPrompt(t, j);
    NoQuoteInPrompt(t, j);
    ThirdWordIsScript(t, j);
    ScriptLayout(t, j);
  }

  /** The fixed pieces around the four ids: an assignment to R ends the head, the branch is assigned to B, and each
      program takes its model and its prompt where the layout puts them. */
  lemma {:induction false} FixedPieces()
    ensures Join(HEAD) == "set -e\n" + ("T=${REPOMESH_GH_TOKEN" + (":?missing installation " + "token}\nR="))
    ensures Join(BRANCH) == "\nB=repomesh/auto-"
    ensures Join(CODEX_MODEL) == "codex exec -c " + ("model_provider=minimax" + " -c model=")
    ensures Join(CLAUDE_PROMPT) == "claude -p \"" && Join(CLAUDE_MODEL) == "\" --model "
  {
    assert HEAD[0..] == HEAD;
    JoinAt(HEAD, 0);
    JoinThree(HEAD[1..]);
    JoinThree(CODEX_MODEL);
    JoinLast(BRANCH);
    JoinLast(CLAUDE_PROMPT);
    JoinLast(CLAUDE_MODEL);
    hide Join;
  }

  lemma {:induction false} JoinThree(p: seq<string>)
    requires |p| == 3
    ensures Join(p) == p[0] + (p[1] + p[2])
  {
    JoinAt(p, 0);
    JoinAt(p, 1);
    JoinLast(p[2..]);
    assert p[0..] == p;
  }

  lemma {:induction false} ThirdWordIsScript(t: Template, j: Job)
    requires PlainText(t) && PlainIds(j) && !j.kind.Unsupported?
    ensures ThirdWord(SplitCommand(BuiltCommand(t, j).value)) == Script(t, j)
  {
    CommandRoundTrip(t, j);
    hide SplitCommand, Script, BuiltCommand;
  }

  lemma {:induction false} TitleIs(title: string)
    ensures SafeTitle(title) == if |title| > 60 then Sanitized(title[..60]) else Sanitized(title)
  {
  }

  lemma {:induction false} LoopIs(t: Template, j: Job)
    ensures var kept := Dependencies.Filtered(j.repository, j.dependencies);
      Checkout(t, j) == if kept == [] then "" else Join(LOOP_HEAD) + (Dependencies.EntryList(kept) + t.loopBody)
  {
  }

  lemma {:induction false} NoQuoteInPrompt(t: Template, j: Job)
    ensures '"' !in Prompt(t, j)
  {
  }

  lemma {:induction false} SanitizedAppends(a: string, b: string)
    ensures Sanitized(a + b) == Sanitized(a) + Sanitized(b)
  {
  }

  lemma {:induction false} ToldIsPrompt(t: Template, j: Job)
    ensures var skill := if TrimSpace(j.skill) == "" then ""
                         else Sanitized(SKILL_TITLE) + (Sanitized(j.skill) + Sanitized(SKILL_END));
      var contract := Sanitized(CONTRACT) + (Sanitized(j.repository) + Sanitized(t.section));
      var requirement := if TrimSpace(j.instruction) == "" then FALLBACK else TrimSpace(j.instruction);
      Prompt(t, j) == skill + (contract + Sanitized(requirement))
  {
    var requirement := if TrimSpace(j.instruction) == "" then FALLBACK else TrimSpace(j.instruction);
    hide Sanitized, TrimSpace;
    SanitizedFour(CONTRACT, j.repository, t.section, requirement);
    SanitizedFour(SKILL_TITLE, j.skill, SKILL_END, CONTRACT + (j.repository + (t.section + requirement)));
  }

  lemma {:induction false} SanitizedFour(a: string, b: string, c: string, d: string)
    ensures Sanitized(a + (b + (c + d))) == (Sanitized(a) + (Sanitized(b) + Sanitized(c))) + Sanitized(d)
  {
    SanitizedAppends(a, b + (c + d));
    SanitizedAppends(b, c + d);
    SanitizedAppends(c, d);
    hide *;
  }

  lemma {:induction false} LineIs(t: Template, j: Job)
    requires !j.kind.Unsupported?
    ensures AgentLine(t, j)
      == if j.kind.Codex? then Join(CODEX_MODEL) + (j.model + (Join(CODEX_PROMPT) + (Prompt(t, j) + "\"")))
         else Join(CLAUDE_PROMPT) + (Prompt(t, j) + (Join(CLAUDE_MODEL) + (j.model + Join(CLAUDE_END))))
  {
    var prompt := Prompt(t, j);
    JoinFive(Join(CODEX_MODEL), j.model, Join(CODEX_PROMPT), prompt, "\"");
    JoinFive(Join(CLAUDE_PROMPT), prompt, Join(CLAUDE_MODEL), j.model, Join(CLAUDE_END));
    hide Prompt, Join;
  }

  lemma {:induction false} JoinFive(a: string, b: string, c: string, d: string, e: string)
    ensures Join([a, b, c, d, e]) == a + (b + (c + (d + e)))
  {
    JoinOne(a, [b, c, d, e]);
    JoinOne(b, [c, d, e]);
    JoinOne(c, [d, e]);
    JoinOne(d, [e]);
    JoinOne(e, []);
    assert e + "" == e;
    assert [a] + [b, c, d, e] == [a, b, c, d, e] && [b] + [c, d, e] == [b, c, d, e] && [c] + [d, e] == [c, d, e];
    assert [d] + [e] == [d, e] && [e] + [] == [e];
  }

  lemma {:induction false} JoinOne(a: string, rest: seq<string>)
    ensures Join([a] + rest) == a + Join(rest)
  {
    assert ([a] + rest)[1..] == rest;
  }

  lemma {:induction false} ScriptLayout(t: Template, j: Job)
    ensures Script(t, j) ==
      Join(HEAD) + (j.repository + (Join(BRANCH) + (j.attempt + (t.checkout + (Checkout(t, j) + (Join(WORK)
      + (AgentLine(t, j) + (t.afterAgent + (j.issue + (Join(COMMIT) + (SafeTitle(j.title) + (t.push
      + (SafeTitle(j.title) + (Join(BODY) + (j.issue + Join(END))))))))))))))))
  {
    hide Join, Checkout, AgentLine, SafeTitle;
    var parts := ScriptParts(t, j);
    JoinSeventeen(parts);
  }

  lemma {:induction false} JoinSeventeen(p: seq<string>)
    requires |p| == 17
    ensures Join(p) == p[0] + (p[1] + (p[2] + (p[3] + (p[4] + (p[5] + (p[6] + (p[7] + (p[8] + (p[9] + (p[10] + (p[11]
      + (p[12] + (p[13] + (p[14] + (p[15] + p[16])))))))))))))))
  {
    hide Join;
    assert p[0..] == p;
    for i := 0 to 16
      invariant forall k :: 0 <= k < i ==> Join(p[k..]) == p[k] + Join(p[k + 1..])
    {
      JoinAt(p, i);
    }
    JoinLast(p[16..]);
  }

  lemma {:induction false} JoinAt(p: seq<string>, i: nat)
    requires i < |p|
    ensures Join(p[i..]) == p[i] + Join(p[i + 1..])
  {
    assert p[i..][1..] == p[i + 1..];
  }

  lemma {:induction false} JoinLast(p: seq<string>)
    requires |p| == 1
    ensures Join(p) == p[0]
  {
    assert p[1..] == [] && p[0] + "" == p[0];
  }
}
