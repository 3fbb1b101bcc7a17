/** What is recovered from an agent's output that does not hold one whole object: a truncated object, a reasoning block
    that never closes, a fenced text without an object, an empty file. */
module RecoveryFallbacks {
  import opened Text
  import opened JsonRecovery

  // ---- the scan, whatever the text ----

  lemma {:induction false} CloseStays(st: Scan, a: string, b: string)
    requires CloseAt(st, a).Some?
    ensures CloseAt(st, a + b) == CloseAt(st, a)
    decreases |a|
  {
    assert (a + b)[0] == a[0] && (a + b)[1..] == a[1..] + b;
    if !Closes(st, a[0]) {
      CloseStays(Step(st, a[0]), a[1..], b);
    }
  }

  lemma {:induction false} BraceStays(a: string, b: string)
    requires FirstBrace(a) < |a|
    ensures FirstBrace(a + b) == FirstBrace(a)
    decreases |a|
  {
    if a[0] != '{' {
      assert (a + b)[0] == a[0] && (a + b)[1..] == a[1..] + b;
      BraceStays(a[1..], b);
    }
  }

  lemma {:induction false} NoBrace(text: string)
    requires FirstBrace(text) == |text|
    ensures Extracted(text).None?
  {
    assert text[|text|..] == "";
  }

  /** What follows a found object does not matter. */
  lemma {:induction false} ExtractStays(text: string, more: string)
    requires Extracted(text).Some?
    ensures Extracted(text + more) == Extracted(text)
  {
    var start := FirstBrace(text);
    if start == |text| {
      NoBrace(text);
    } else {
      BraceStays(text, more);
      CloseStays(Scan(0, false, false), text[start..], more);
      CloseWithin(Scan(0, false, false), text[start..]);
      assert (text + more)[start..] == text[start..] + more;
      var n := CloseAt(Scan(0, false, false), text[start..]).value;
      assert (text + more)[start..start + n] == text[start..start + n];
    }
  }

  /** What is found reaches from the first opening brace to a closing one, and is found again in itself. */
  lemma {:induction false} FoundMeans(text: string)
    requires Extracted(text).Some?
    ensures var r, start := Extracted(text).value, FirstBrace(text);
      && 2 <= |r| <= |text| - start && text[start..start + |r|] == r && '{' !in text[..start]
      && r[0] == '{' && r[|r| - 1] == '}' && Extracted(r) == Some(r)
  {
    var start := FirstBrace(text);
    if start == |text| {
      NoBrace(text);
    } else {
      var st, rest := Scan(0, false, false), text[start..];
      var n := CloseAt(st, rest).value;
      var r := rest[..n];
      CloseWithin(st, rest);
      assert text[start..start + n] == r;
      CloseOfPart(st, rest);
      assert rest[0] == '{';
      EndsInBrace(st, rest);
      assert FirstBrace(r) == 0 && r[0..] == r && r[..n] == r;
    }
  }

  /** The scan reads no further than it needs. */
  lemma {:induction false} CloseOfPart(st: Scan, text: string)
    requires CloseAt(st, text).Some?
    ensures CloseAt(st, text).value <= |text| && CloseAt(st, text[..CloseAt(st, text).value]) == CloseAt(st, text)
    decreases |text|
  {
    CloseWithin(st, text);
    var part := text[..CloseAt(st, text).value];
    assert part[0] == text[0];
    if !Closes(st, text[0]) {
      CloseOfPart(Step(st, text[0]), text[1..]);
      assert part[1..] == text[1..][..CloseAt(Step(st, text[0]), text[1..]).value];
    }
  }

  lemma {:induction false} EndsInBrace(st: Scan, text: string)
    requires CloseAt(st, text).Some?
    ensures 1 <= CloseAt(st, text).value <= |text| && text[CloseAt(st, text).value - 1] == '}'
    decreases |text|
  {
    CloseWithin(st, text);
    if !Closes(st, text[0]) {
      EndsInBrace(Step(st, text[0]), text[1..]);
    }
  }

  lemma {:induction false} FoundIsWithin(prefix: string, part: string)
    requires '{' !in prefix
    ensures Extracted(prefix + part).Some? ==> |Extracted(prefix + part).value| <= |part|
  {
    var text := prefix + part;
    if Extracted(text).Some? {
      FoundMeans(text);
      assert forall i :: 0 <= i < |prefix| ==> text[i] == prefix[i] && prefix[i] in prefix;
      hide Extracted;
    }
  }

  lemma {:induction false} PartIsWhole(prefix: string, printed: string, n: nat)
    requires n <= |printed| && Extracted(prefix + (printed + "")) == Some(printed)
    ensures Extracted(prefix + printed[..n]).Some? ==> Extracted(prefix + printed[..n]) == Some(printed)
  {
    if Extracted(prefix + printed[..n]).Some? {
      ExtractStays(prefix + printed[..n], printed[n..]);
      assert (prefix + printed[..n]) + printed[n..] == prefix + (printed + "");
      hide Extracted;
    }
  }

  /** A truncated object is not found, wherever it was cut. */
  lemma {:induction false} TruncatedIsNotFound(prefix: string, obj: Json, n: nat)
    requires '{' !in prefix && obj.Obj? && Valid(obj) && n < |Print(obj)|
    ensures Extracted(prefix + Print(obj)[..n]).None?
  {
    ExtractRoundTrip(prefix, obj, "");
    hide *;
    PartIsWhole(prefix, Print(obj), n);
    FoundIsWithin(prefix, Print(obj)[..n]);
  }

  // ---- a reasoning block that never closes ----

  lemma {:induction false} NoCloseBehindOpen(rest: string)
    requires !Contains(rest, CLOSE)
    ensures IndexOf(OPEN + rest, CLOSE).None?
  {
    var text := OPEN + rest;
    forall j
      ensures !OccursAt(text, CLOSE, j)
    {
      if j == 0 && |CLOSE| <= |text| {
        assert text[j + 1] == OPEN[1] != CLOSE[1];
      } else if 0 < j < |OPEN| && j + |CLOSE| <= |text| {
        assert text[j + 0] == OPEN[j] != CLOSE[0];
      } else if |OPEN| <= j && j + |CLOSE| <= |text| {
        NotWithin(text, CLOSE, rest, |OPEN|, j);
      }
    }
    AbsentIsClean(text, CLOSE);
  }

  /** It is cut to the end of the text; the prose before it stays, without the blocks that close. */
  lemma {:induction false} UnclosedIsCut(done: string, blocks: seq<Block>, last: string, rest: string)
    requires ThoughtsClose(blocks) && !Contains(done + Prose(blocks, last), OPEN) && !Contains(rest, "</think>")
    ensures Stripped(done + (Noisy(blocks, last) + ("<think>" + rest))) == done + Prose(blocks, last)
    decreases |blocks|
  {
    if blocks == [] {
      OpenIsFirst(done + last, rest);
      NoCloseBehindOpen(rest);
      Associate(done, last, OPEN + rest);
      CutEnd(done + last, OPEN + rest, OPEN, CLOSE);
    } else {
      var p := done + blocks[0].prose;
      NoisyUnfolds(done, blocks, last);
      NoisyThenTail(done, blocks, last, OPEN + rest);
      PrefixIsClean(p, Prose(blocks[1..], last));
      StripOne(p, blocks[0].thought, Noisy(blocks[1..], last) + (OPEN + rest));
      UnclosedIsCut(p, blocks[1..], last, rest);
    }
  }

  // ---- a text without an object ----

  predicate AllSpace(text: string) {
    forall i :: 0 <= i < |text| ==> IsSpace(text[i])
  }

  predicate Tight(text: string) {
    text != "" && !IsSpace(text[0]) && !IsSpace(text[|text| - 1])
  }

  lemma {:induction false} SpaceTrims(text: string)
    requires AllSpace(text)
    ensures TrimLeft(text) == "" && TrimRight(text) == ""
    decreases |text|
  {
    if text != "" {
      SpaceTrims(text[1..]);
      SpaceTrims(text[..|text| - 1]);
    }
  }

  lemma {:induction false} TrimTight(before: string, text: string, after: string)
    requires AllSpace(before) && Tight(text) && AllSpace(after)
    ensures TrimSpace(before + (text + after)) == text
  {
    SpaceTrims(before);
    SpaceTrims(after);
    TrimLeftStops(before, text + after);
    assert "" + (text + after) == text + after;
    TrimRightStops(text, after);
    assert text + "" == text;
  }

  /** The file is empty exactly when it is all whitespace. */
  lemma {:induction false} EmptyMeans(raw: string)
    ensures Candidate(raw).None? <==> AllSpace(raw)
  {
    var a, b := TrimCuts(raw);
    if AllSpace(raw) {
      SpaceTrims(raw);
    } else {
      var i :| 0 <= i < |raw| && !IsSpace(raw[i]);
      assert a < b;
    }
  }

  /** A mark cannot begin in one of two texts and end in the other when the second starts outside of it. */
  lemma {:induction false} CleanJoin(a: string, b: string)
    requires !Contains(a, OPEN) && !Contains(b, OPEN) && (b != "" ==> b[0] !in OPEN[1..])
    ensures !Contains(a + b, OPEN)
  {
    var text := a + b;
    forall j
      ensures !OccursAt(text, OPEN, j)
    {
      if 0 <= j && j + |OPEN| <= |a| {
        NotWithin(text, OPEN, a, 0, j);
      } else if |a| <= j && j + |OPEN| <= |text| {
        NotWithin(text, OPEN, b, |a|, j);
      } else if 0 <= j < |a| && j + |OPEN| <= |text| {
        assert text[j + (|a| - j)] == b[0];
        assert OPEN[|a| - j] == OPEN[1..][|a| - j - 1];
      }
    }
  }

  lemma {:induction false} NoMark(text: string)
    requires '<' !in text
    ensures !Contains(text, OPEN)
  {
    forall j
      ensures !OccursAt(text, OPEN, j)
    {
      if 0 <= j && j + |OPEN| <= |text| {
        assert text[j + 0] in text && OPEN[0] == '<';
      }
    }
  }

  /** A text without an object comes back as it is, without the space and the code fence around it. */
  lemma {:induction false} FencedTextComesBack(before: string, fence: string, gap: string, text: string, end: string, after: string)
    requires fence in {"```json", "```"} && AllSpace(before) && AllSpace(after) && AllSpace(gap) && gap != "" && AllSpace(end)
    requires Tight(text) && '{' !in text && !Contains(text, OPEN)
    ensures Candidate(before + ((fence + (gap + (text + (end + "```")))) + after)) == Some(text)
  {
    var body := gap + (text + end);
    var fenced := fence + (body + "```");
    Regroup(fence, gap, text, end);
    FencedIsTight(fence, body);
    TrimTight(before, fenced, after);
    FencedIsClean(fence, gap, text, end);
    FenceComesOff(fence, body);
    TrimTight(gap, text, end);
    TrimTight("", text, "");
    CandidateOf(before + (fenced + after), fenced, text);
  }

  lemma {:induction false} Regroup(fence: string, gap: string, text: string, end: string)
    ensures fence + (gap + (text + (end + "```"))) == fence + ((gap + (text + end)) + "```")
    ensures "" + (text + "") == text
  {
  }

  lemma {:induction false} FencedIsTight(fence: string, body: string)
    requires fence in {"```json", "```"}
    ensures Tight(fence + (body + "```"))
  {
  }

  lemma {:induction false} CandidateOf(raw: string, fenced: string, text: string)
    requires TrimSpace(raw) == fenced && fenced != "" && !Contains(fenced, OPEN) && Unfenced(fenced) == text
    requires TrimSpace(text) == text && '{' !in text
    ensures Candidate(raw) == Some(text)
  {
    StrippedClean(fenced);
    NoBraceIn(text);
    hide TrimSpace, Stripped, Unfenced, Extracted;
  }

  lemma {:induction false} NoBraceIn(text: string)
    requires '{' !in text
    ensures Extracted(text).None?
  {
    assert FirstBrace(text) == |text|;
    NoBrace(text);
  }

  lemma {:induction false} FencedIsClean(fence: string, gap: string, text: string, end: string)
    requires fence in {"```json", "```"} && AllSpace(gap) && gap != "" && AllSpace(end) && !Contains(text, OPEN)
    ensures !Contains(fence + ((gap + (text + end)) + "```"), OPEN)
  {
    var shut := end + "```";
    assert forall i :: 0 <= i < |shut| ==> shut[i] != '<' && shut[i] !in OPEN[1..];
    NoMark(shut);
    CleanJoin(text, shut);
    var head := fence + gap;
    assert forall i :: 0 <= i < |head| ==> head[i] != '<';
    IndexSkipsHead(head, text + shut);
    assert fence + ((gap + (text + end)) + "```") == head + (text + shut);
  }

  lemma {:induction false} IndexSkipsHead(head: string, tail: string)
    requires '<' !in head && !Contains(tail, OPEN)
    ensures !Contains(head + tail, OPEN)
  {
    var text := head + tail;
    forall j
      ensures !OccursAt(text, OPEN, j)
    {
      if 0 <= j < |head| && j + |OPEN| <= |text| {
        assert text[j + 0] == head[j] && head[j] in head && OPEN[0] == '<';
      } else if |head| <= j && j + |OPEN| <= |text| {
        NotWithin(text, OPEN, tail, |head|, j);
      }
    }
  }

  lemma {:induction false} FenceComesOff(fence: string, body: string)
    requires fence in {"```json", "```"} && body != "" && IsSpace(body[0])
    ensures Unfenced(fence + (body + "```")) == TrimSpace(body)
  {
    var shut := body + "```";
    assert shut[0] == body[0] != '`';
    assert (fence + shut)[|fence|..] == shut;
    if fence == "```json" {
      assert fence <= fence + shut;
    } else {
      assert (fence + shut)[3] == body[0] != 'j';
    }
    assert shut[|shut| - 3..] == "```" && shut[..|shut| - 3] == body;
  }
}
