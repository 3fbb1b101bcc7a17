/** Recovering the planning artifact from noisy agent output: strip the reasoning blocks, trim fences,
    take the first balanced JSON object. The grammar is that of RFC 8259, sections 4 and 7. */
module JsonRecovery {
  import opened Text

  // ---- the scanner ----

  datatype Scan = Scan(depth: int, inString: bool, escaped: bool)

  function Step(st: Scan, c: char): Scan {
    if st.escaped then st.(escaped := false)
    else if st.inString && c == '\\' then st.(escaped := true)
    else if c == '"' then st.(inString := !st.inString)
    else if st.inString then st
    else if c == '{' then st.(depth := st.depth + 1)
    else if c == '}' then st.(depth := st.depth - 1)
    else st
  }

  /** The character closes the outermost object. */
  predicate Closes(st: Scan, c: char) {
    !st.escaped && !st.inString && c == '}' && st.depth == 1
  }

  /** How many characters the scan reads until the outermost object is closed. */
  function CloseAt(st: Scan, text: string): Option<nat>
    decreases |text|
  {
    if text == "" then None
    else if Closes(st, text[0]) then Some(1)
    else
      var rest := CloseAt(Step(st, text[0]), text[1..]);
      if rest.None? then None else Some(rest.value + 1)
  }

  function FirstBrace(text: string): (i: nat)
    ensures i <= |text| && (i < |text| ==> text[i] == '{') && forall j :: 0 <= j < i ==> text[j] != '{'
  {
    if text == "" || text[0] == '{' then 0 else FirstBrace(text[1..]) + 1
  }

  function Extracted(text: string): Option<string> {
    var start := FirstBrace(text);
    var end := CloseAt(Scan(0, false, false), text[start..]);
    if end.None? || start + end.value > |text| then None else Some(text[start..start + end.value])
  }

  lemma {:induction false} CloseWithin(st: Scan, text: string)
    ensures CloseAt(st, text).Some? ==> 1 <= CloseAt(st, text).value <= |text|
    decreases |text|
  {
    if text != "" && !Closes(st, text[0]) {
      CloseWithin(Step(st, text[0]), text[1..]);
    }
  }

  /** extractJSONObject: one pass with depth, inString and escaped. */
  method ExtractJSONObject(text: string) returns (result: Option<string>)
    ensures result == Extracted(text)
  {
    var start := FirstBrace(text);
    if start == |text| {
      assert text[start..] == "";
      return None;
    }
    var depth, inString, escaped := 0, false, false;
    var i := start;
    ghost var whole := CloseAt(Scan(0, false, false), text[start..]);
    while i < |text|
      invariant start <= i <= |text|
      invariant var rest := CloseAt(Scan(depth, inString, escaped), text[i..]);
        whole == if rest.None? then None else Some(rest.value + (i - start))
    {
      assert text[i..][0] == text[i] && text[i..][1..] == text[i + 1..];
      if escaped {
        escaped := false;
      } else if inString && text[i] == '\\' {
        escaped := true;
      } else if text[i] == '"' {
        inString := !inString;
      } else if inString {
      } else if text[i] == '{' {
        depth := depth + 1;
      } else if text[i] == '}' {
        depth := depth - 1;
        if depth == 0 {
          return Some(text[start..i + 1]);
        }
      }
      i := i + 1;
    }
    return None;
  }

  // ---- JSON texts ----

  // A string literal as written: a plain character, a two-character escape or \u and four digits.
  datatype Piece = Plain(c: char) | Escape(c: char) | Unicode(digits: string)

  // `Word` are the literals and numbers. `Pad` is whitespace around a value, and `inner` the whitespace
  // after an opening bracket, so that every layout of a JSON text is the print of some value.
  datatype Json =
    | Word(text: string)
    | Str(pieces: seq<Piece>)
    | Arr(inner: string, elems: seq<Json>)
    | Obj(inner: string, members: seq<Member>)
    | Pad(before: string, value: Json, after: string)

  datatype Member = Member(before: string, name: seq<Piece>, after: string, value: Json)

  predicate Whitespace(text: string) {
    forall i :: 0 <= i < |text| ==> text[i] in {' ', '\t', '\n', '\r'}
  }

  predicate WordText(text: string) {
    forall i :: 0 <= i < |text| ==>
      'a' <= text[i] <= 'z' || 'A' <= text[i] <= 'Z' || '0' <= text[i] <= '9' || text[i] in {'+', '-', '.'}
  }

  predicate HexDigit(c: char) {
    '0' <= c <= '9' || 'a' <= c <= 'f' || 'A' <= c <= 'F'
  }

  predicate ValidPiece(p: Piece) {
    match p
    case Plain(c) => c != '"' && c != '\\' && c >= ' '
    case Escape(c) => c in {'"', '\\', '/', 'b', 'f', 'n', 'r', 't'}
    case Unicode(digits) => |digits| == 4 && forall i :: 0 <= i < 4 ==> HexDigit(digits[i])
  }

  predicate ValidPieces(ps: seq<Piece>) {
    forall i :: 0 <= i < |ps| ==> ValidPiece(ps[i])
  }

  predicate Valid(j: Json)
    decreases j, 1
  {
    match j
    case Word(text) => WordText(text)
    case Str(pieces) => ValidPieces(pieces)
    case Arr(inner, elems) => Whitespace(inner) && ValidElems(elems)
    case Obj(inner, members) => Whitespace(inner) && ValidMembers(members)
    case Pad(before, value, after) => Whitespace(before) && Whitespace(after) && Valid(value)
  }

  predicate ValidElems(elems: seq<Json>)
    decreases elems, 0
  {
    elems == [] || (Valid(elems[0]) && ValidElems(elems[1..]))
  }

  predicate ValidMembers(members: seq<Member>)
    decreases members, 0
  {
    members == [] || (ValidMember(members[0]) && ValidMembers(members[1..]))
  }

  predicate ValidMember(m: Member)
    decreases m, 0
  {
    Whitespace(m.before) && ValidPieces(m.name) && Whitespace(m.after) && Valid(m.value)
  }

  function PrintPiece(p: Piece): string {
    match p
    case Plain(c) => [c]
    case Escape(c) => ['\\', c]
    case Unicode(digits) => "\\u" + digits
  }

  function PrintPieces(ps: seq<Piece>): string {
    if ps == [] then "" else PrintPiece(ps[0]) + PrintPieces(ps[1..])
  }

  function PrintString(ps: seq<Piece>): string {
    "\"" + (PrintPieces(ps) + "\"")
  }

  function Print(j: Json): string
    decreases j, 1
  {
    match j
    case Word(text) => text
    case Str(pieces) => PrintString(pieces)
    case Arr(inner, elems) => "[" + (inner + (PrintElems(elems) + "]"))
    case Obj(inner, members) => "{" + (inner + (PrintMembers(members) + "}"))
    case Pad(before, value, after) => before + (Print(value) + after)
  }

  function PrintElems(elems: seq<Json>): string
    decreases elems, 0
  {
    if elems == [] then ""
    else Print(elems[0]) + ((if |elems| == 1 then "" else ",") + PrintElems(elems[1..]))
  }

  function PrintMember(m: Member): string
    decreases m, 0
  {
    m.before + (PrintString(m.name) + (m.after + (":" + Print(m.value))))
  }

  function PrintMembers(members: seq<Member>): string
    decreases members, 0
  {
    if members == [] then ""
    else PrintMember(members[0]) + ((if |members| == 1 then "" else ",") + PrintMembers(members[1..]))
  }

  // ---- scanning a JSON text ----

  /** Reading the text brings the scan back to where it was, without closing the outermost object. */
  predicate Passes(st: Scan, text: string)
    decreases |text|
  {
    Ends(st, text) == Some(st)
  }

  function Ends(st: Scan, text: string): Option<Scan>
    decreases |text|
  {
    if text == "" then Some(st)
    else if Closes(st, text[0]) then None
    else Ends(Step(st, text[0]), text[1..])
  }

  lemma {:induction false} EndsAppend(st: Scan, a: string, b: string)
    requires Ends(st, a).Some?
    ensures Ends(st, a + b) == Ends(Ends(st, a).value, b)
    decreases |a|
  {
    if a == "" {
      assert a + b == b;
    } else {
      assert (a + b)[0] == a[0] && (a + b)[1..] == a[1..] + b;
      EndsAppend(Step(st, a[0]), a[1..], b);
    }
  }

  lemma {:induction false} CloseAppend(st: Scan, a: string, b: string)
    requires Ends(st, a).Some?
    ensures var rest := CloseAt(Ends(st, a).value, b);
      CloseAt(st, a + b) == if rest.None? then None else Some(rest.value + |a|)
    decreases |a|
  {
    if a == "" {
      assert a + b == b;
    } else {
      assert (a + b)[0] == a[0] && (a + b)[1..] == a[1..] + b;
      CloseAppend(Step(st, a[0]), a[1..], b);
    }
  }

  /** Outside strings everything but quotes and braces is skipped. */
  lemma {:induction false} InertPasses(st: Scan, text: string)
    requires !st.inString && !st.escaped && forall i :: 0 <= i < |text| ==> text[i] !in {'"', '{', '}'}
    ensures Passes(st, text)
    decreases |text|
  {
    if text != "" {
      assert text[0] !in {'"', '{', '}'};
      InertPasses(st, text[1..]);
    }
  }

  lemma {:induction false} PassesAppend(st: Scan, a: string, b: string)
    requires Passes(st, a) && Passes(st, b)
    ensures Passes(st, a + b)
  {
    EndsAppend(st, a, b);
  }

  /** Inside a string everything but quotes and backslashes is skipped. */
  lemma {:induction false} PlainPasses(st: Scan, text: string)
    requires st.inString && !st.escaped && forall i :: 0 <= i < |text| ==> text[i] !in {'"', '\\'}
    ensures Passes(st, text)
    decreases |text|
  {
    if text != "" {
      assert text[0] !in {'"', '\\'};
      PlainPasses(st, text[1..]);
    }
  }

  lemma {:induction false} EscapePasses(st: Scan, c: char)
    requires st.inString && !st.escaped
    ensures Passes(st, ['\\', c])
  {
    assert ['\\', c][1..] == [c] && [c][1..] == "";
    assert Ends(st.(escaped := true), [c]) == Some(st);
  }

  lemma {:induction false} PiecePasses(st: Scan, p: Piece)
    requires st.inString && !st.escaped && ValidPiece(p)
    ensures Passes(st, PrintPiece(p))
  {
    match p {
      case Plain(c) => PlainPasses(st, [c]);
      case Escape(c) => EscapePasses(st, c);
      case Unicode(digits) =>
        EscapePasses(st, 'u');
        PlainPasses(st, digits);
        PassesAppend(st, ['\\', 'u'], digits);
        assert "\\u" == ['\\', 'u'];
    }
  }

  /** Quotes, braces and escapes inside a string literal never reach the depth counter. */
  lemma {:induction false} PiecesPass(st: Scan, ps: seq<Piece>)
    requires st.inString && !st.escaped && ValidPieces(ps)
    ensures Passes(st, PrintPieces(ps))
    decreases |ps|
  {
    if ps != [] {
      PiecePasses(st, ps[0]);
      PiecesPass(st, ps[1..]);
      PassesAppend(st, PrintPiece(ps[0]), PrintPieces(ps[1..]));
    }
  }

  lemma {:induction false} StringPasses(st: Scan, ps: seq<Piece>)
    requires !st.inString && !st.escaped && ValidPieces(ps)
    ensures Passes(st, PrintString(ps))
  {
    var inside := st.(inString := true);
    PiecesPass(inside, ps);
    EndsAppend(inside, PrintPieces(ps), "\"");
    assert "\""[1..] == "";
    assert PrintString(ps)[1..] == PrintPieces(ps) + "\"";
  }

  /** At any depth from one on, a whole value leaves the scan where it found it. */
  lemma {:induction false} ValuePasses(st: Scan, j: Json)
    requires st.depth >= 1 && !st.inString && !st.escaped && Valid(j)
    ensures Passes(st, Print(j))
    decreases j, 1
  {
    match j {
      case Word(text) => InertPasses(st, text);
      case Str(pieces) => StringPasses(st, pieces);
      case Arr(inner, elems) =>
        InertPasses(st, "[");
        InertPasses(st, inner);
        ElemsPass(st, elems);
        InertPasses(st, "]");
        PassesAppend(st, PrintElems(elems), "]");
        PassesAppend(st, inner, PrintElems(elems) + "]");
        PassesAppend(st, "[", inner + (PrintElems(elems) + "]"));
      case Obj(inner, members) =>
        var body := inner + PrintMembers(members);
        BodyPasses(st.(depth := st.depth + 1), inner, members);
        EndsAppend(st.(depth := st.depth + 1), body, "}");
        assert "}"[1..] == "";
        assert Print(j)[1..] == inner + (PrintMembers(members) + "}") == body + "}";
      case Pad(before, value, after) =>
        InertPasses(st, before);
        ValuePasses(st, value);
        InertPasses(st, after);
        PassesAppend(st, Print(value), after);
        PassesAppend(st, before, Print(value) + after);
    }
  }

  lemma {:induction false} BodyPasses(st: Scan, inner: string, members: seq<Member>)
    requires st.depth >= 1 && !st.inString && !st.escaped && Whitespace(inner) && ValidMembers(members)
    ensures Passes(st, inner + PrintMembers(members))
    decreases members, 1
  {
    InertPasses(st, inner);
    MembersPass(st, members);
    PassesAppend(st, inner, PrintMembers(members));
  }

  lemma {:induction false} ElemsPass(st: Scan, elems: seq<Json>)
    requires st.depth >= 1 && !st.inString && !st.escaped && ValidElems(elems)
    ensures Passes(st, PrintElems(elems))
    decreases elems, 0
  {
    if elems != [] {
      var comma := if |elems| == 1 then "" else ",";
      ValuePasses(st, elems[0]);
      ElemsPass(st, elems[1..]);
      InertPasses(st, comma);
      PassesAppend(st, comma, PrintElems(elems[1..]));
      PassesAppend(st, Print(elems[0]), comma + PrintElems(elems[1..]));
    }
  }

  lemma {:induction false} MemberPasses(st: Scan, m: Member)
    requires st.depth >= 1 && !st.inString && !st.escaped && ValidMember(m)
    ensures Passes(st, PrintMember(m))
    decreases m, 0
  {
    InertPasses(st, m.before);
    StringPasses(st, m.name);
    InertPasses(st, m.after);
    InertPasses(st, ":");
    ValuePasses(st, m.value);
    PassesAppend(st, ":", Print(m.value));
    PassesAppend(st, m.after, ":" + Print(m.value));
    PassesAppend(st, PrintString(m.name), m.after + (":" + Print(m.value)));
    PassesAppend(st, m.before, PrintString(m.name) + (m.after + (":" + Print(m.value))));
  }

  lemma {:induction false} MembersPass(st: Scan, members: seq<Member>)
    requires st.depth >= 1 && !st.inString && !st.escaped && ValidMembers(members)
    ensures Passes(st, PrintMembers(members))
    decreases members, 0
  {
    if members != [] {
      var comma := if |members| == 1 then "" else ",";
      MemberPasses(st, members[0]);
      MembersPass(st, members[1..]);
      InertPasses(st, comma);
      PassesAppend(st, comma, PrintMembers(members[1..]));
      PassesAppend(st, PrintMember(members[0]), comma + PrintMembers(members[1..]));
    }
  }

  /** The scan of an object, whatever follows it, stops exactly at its closing brace. */
  lemma {:induction false} ObjectCloses(obj: Json, suffix: string)
    requires obj.Obj? && Valid(obj)
    ensures CloseAt(Scan(0, false, false), Print(obj) + suffix) == Some(|Print(obj)|)
  {
    var st := Scan(1, false, false);
    var body := obj.inner + PrintMembers(obj.members);
    BodyPasses(st, obj.inner, obj.members);
    var rest := "}" + suffix;
    CloseAppend(st, body, rest);
    assert Print(obj) == "{" + (body + "}");
    assert (Print(obj) + suffix)[0] == '{' && (Print(obj) + suffix)[1..] == body + rest;
    assert CloseAt(st, rest) == Some(1);
  }

  lemma {:induction false} FirstBraceAfter(prefix: string, text: string)
    requires '{' !in prefix && text != "" && text[0] == '{'
    ensures FirstBrace(prefix + text) == |prefix|
    decreases |prefix|
  {
    if prefix == "" {
      assert prefix + text == text;
    } else {
      assert (prefix + text)[1..] == prefix[1..] + text;
      FirstBraceAfter(prefix[1..], text);
    }
  }

  /** For every object, every layout, every prefix without an opening brace and every suffix, exactly
      the printed object comes back. */
  lemma {:induction false} ExtractRoundTrip(prefix: string, obj: Json, suffix: string)
    requires '{' !in prefix && obj.Obj? && Valid(obj)
    ensures Extracted(prefix + (Print(obj) + suffix)) == Some(Print(obj))
  {
    var text := prefix + (Print(obj) + suffix);
    assert (Print(obj) + suffix)[0] == '{';
    FirstBraceAfter(prefix, Print(obj) + suffix);
    assert text[|prefix|..] == Print(obj) + suffix;
    ObjectCloses(obj, suffix);
    assert text[|prefix|..|prefix| + |Print(obj)|] == Print(obj);
  }

  // ---- reasoning blocks ----

  const OPEN := "<think>"
  const CLOSE := "</think>"

  predicate OccursAt(text: string, needle: string, i: int) {
    0 <= i && i + |needle| <= |text| && forall k :: 0 <= k < |needle| ==> text[i + k] == needle[k]
  }

  ghost predicate Contains(text: string, needle: string) {
    exists i :: OccursAt(text, needle, i)
  }

  /** strings.Index. */
  function IndexOf(text: string, needle: string): (r: Option<nat>)
    ensures r.Some? ==> r.value + |needle| <= |text|
  {
    if OccursAt(text, needle, 0) then Some(0)
    else if text == "" then None
    else
      var rest := IndexOf(text[1..], needle);
      if rest.None? then None else Some(rest.value + 1)
  }

  lemma {:induction false} IndexOfOccurs(text: string, needle: string)
    requires IndexOf(text, needle).Some?
    ensures OccursAt(text, needle, IndexOf(text, needle).value)
    decreases |text|
  {
    if !OccursAt(text, needle, 0) {
      IndexOfOccurs(text[1..], needle);
      OccursInTail(text, needle, IndexOf(text, needle).value);
    }
  }

  lemma {:induction false} OccursInTail(text: string, needle: string, j: int)
    requires text != "" && j >= 1
    ensures OccursAt(text[1..], needle, j - 1) <==> OccursAt(text, needle, j)
  {
    assert forall m :: 1 <= m < |text| ==> text[1..][m - 1] == text[m];
  }

  /** No occurrence stands before the one found. */
  lemma {:induction false} IndexOfIsFirst(text: string, needle: string, j: int)
    requires OccursAt(text, needle, j)
    ensures IndexOf(text, needle).Some? && IndexOf(text, needle).value <= j
    decreases |text|
  {
    if !OccursAt(text, needle, 0) {
      OccursInTail(text, needle, j);
      IndexOfIsFirst(text[1..], needle, j - 1);
    }
  }

  lemma {:induction false} OccursInPart(text: string, a: nat, b: nat, needle: string, j: int)
    requires a <= b <= |text| && OccursAt(text[a..b], needle, j)
    ensures OccursAt(text, needle, a + j)
  {
    assert forall k {:trigger needle[k]} :: 0 <= k < |needle| ==> text[a..b][j + k] == text[a + j + k];
  }

  /** One block is cut at a time; the text is then searched from its start again, since the cut may have
      joined a new opening mark. An unclosed block reaches to the end. */
  function Cut(text: string, open: string, close: string): string
    requires close != ""
    decreases |text|
  {
    var start := IndexOf(text, open);
    if start.None? then text
    else
      var rest := text[start.value..];
      var end := IndexOf(rest, close);
      if end.None? then text[..start.value] else Cut(text[..start.value] + rest[end.value + |close|..], open, close)
  }

  function Stripped(text: string): string {
    Cut(text, OPEN, CLOSE)
  }

  method CutBlocks(input: string, open: string, close: string) returns (text: string)
    requires close != ""
    ensures text == Cut(input, open, close)
  {
    text := input;
    while true
      invariant Cut(text, open, close) == Cut(input, open, close)
      decreases |text|
    {
      var start := IndexOf(text, open);
      if start.None? {
        break;
      }
      var rest := text[start.value..];
      var end := IndexOf(rest, close);
      if end.None? {
        return text[..start.value];
      }
      text := text[..start.value] + rest[end.value + |close|..];
    }
  }

  /** stripReasoning. */
  method StripReasoning(input: string) returns (text: string)
    ensures text == Stripped(input)
  {
    text := CutBlocks(input, OPEN, CLOSE);
  }

  lemma {:induction false} CutIsClean(text: string, open: string, close: string)
    requires open != "" && close != ""
    ensures !Contains(Cut(text, open, close), open)
    decreases |text|
  {
    var start := IndexOf(text, open);
    if start.None? {
      AbsentIsClean(text, open);
    } else {
      var i := start.value;
      var end := IndexOf(text[i..], close);
      if end.None? {
        FirstCutIsClean(text, open, i);
      } else {
        CutIsClean(text[..i] + text[i..][end.value + |close|..], open, close);
      }
    }
  }

  /** No opening mark is left, not even one that a cut has joined. */
  lemma {:induction false} StrippedIsClean(text: string)
    ensures !Contains(Stripped(text), OPEN)
  {
    CutIsClean(text, OPEN, CLOSE);
  }

  lemma {:induction false} AbsentIsClean(text: string, open: string)
    ensures IndexOf(text, open).None? <==> !Contains(text, open)
  {
    if Contains(text, open) {
      var j :| OccursAt(text, open, j);
      IndexOfIsFirst(text, open, j);
    } else if IndexOf(text, open).Some? {
      IndexOfOccurs(text, open);
    }
  }

  lemma {:induction false} FirstCutIsClean(text: string, open: string, i: nat)
    requires open != "" && IndexOf(text, open) == Some(i)
    ensures !Contains(text[..i], open)
  {
    if Contains(text[..i], open) {
      var j :| OccursAt(text[..i], open, j);
      assert text[..i] == text[0..i];
      OccursInPart(text, 0, i, open, j);
      IndexOfIsFirst(text, open, j);
    }
  }

  predicate Subsequence(a: string, b: string)
    decreases |b|
  {
    a == "" || (b != "" && ((a[0] == b[0] && Subsequence(a[1..], b[1..])) || Subsequence(a, b[1..])))
  }

  lemma {:induction false} SubsequenceSelf(a: string)
    ensures Subsequence(a, a)
    decreases |a|
  {
    if a != "" {
      SubsequenceSelf(a[1..]);
    }
  }

  /** Cutting a stretch out of a text only removes subsequences. */
  lemma {:induction false} SubsequenceWider(a: string, p: string, cut: string, q: string)
    requires Subsequence(a, p + q)
    ensures Subsequence(a, p + (cut + q))
    decreases |p| + |cut|
  {
    if a == "" {
    } else if p != "" {
      assert (p + q)[1..] == p[1..] + q && (p + (cut + q))[1..] == p[1..] + (cut + q);
      if Subsequence(a, p[1..] + q) {
        SubsequenceWider(a, p[1..], cut, q);
      } else {
        SubsequenceWider(a[1..], p[1..], cut, q);
      }
    } else if cut != "" {
      assert p + q == q && p + (cut + q) == cut + q && (cut + q)[1..] == "" + (cut[1..] + q);
      SubsequenceWider(a, "", cut[1..], q);
    } else {
      assert p + q == q && p + (cut + q) == q;
    }
  }

  lemma {:induction false} CutOut(text: string, a: string, i: nat, j: nat)
    requires i <= j <= |text| && Subsequence(a, text[..i] + text[j..])
    ensures Subsequence(a, text)
  {
    assert text == text[..i] + (text[i..j] + text[j..]);
    SubsequenceWider(a, text[..i], text[i..j], text[j..]);
  }

  lemma {:induction false} CutIsSubsequence(text: string, open: string, close: string)
    requires close != ""
    ensures Subsequence(Cut(text, open, close), text)
    decreases |text|
  {
    var start := IndexOf(text, open);
    if start.None? {
      SubsequenceSelf(text);
    } else {
      var i := start.value;
      var end := IndexOf(text[i..], close);
      if end.None? {
        SubsequenceSelf(text[..i]);
        assert text[..i] + text[|text|..] == text[..i];
        CutOut(text, text[..i], i, |text|);
      } else {
        var n := end.value + |close|;
        SliceTwice(text, i, n);
        CutIsSubsequence(text[..i] + text[i + n..], open, close);
        CutOut(text, Cut(text, open, close), i, i + n);
      }
    }
  }

  lemma {:induction false} SliceTwice(text: string, i: nat, n: nat)
    requires i + n <= |text|
    ensures text[i..][n..] == text[i + n..]
  {
  }

  lemma {:induction false} StrippedIsSubsequence(text: string)
    ensures Subsequence(Stripped(text), text)
  {
    var stripped := Stripped(text);
    CutIsSubsequence(text, OPEN, CLOSE);
    assert stripped == Cut(text, OPEN, CLOSE);
  }

  // Agent output: prose, interrupted by reasoning blocks. What is left when they are taken out is `Prose`.
  datatype Block = Block(prose: string, thought: string)

  function Noisy(blocks: seq<Block>, last: string): string {
    if blocks == [] then last
    else blocks[0].prose + (OPEN + (blocks[0].thought + (CLOSE + Noisy(blocks[1..], last))))
  }

  function Prose(blocks: seq<Block>, last: string): string {
    if blocks == [] then last else blocks[0].prose + Prose(blocks[1..], last)
  }

  ghost predicate ThoughtsClose(blocks: seq<Block>) {
    forall i :: 0 <= i < |blocks| ==> !Contains(blocks[i].thought, CLOSE)
  }

  lemma {:induction false} FirstIs(text: string, needle: string, i: nat)
    requires OccursAt(text, needle, i) && forall j :: 0 <= j < i ==> !OccursAt(text, needle, j)
    ensures IndexOf(text, needle) == Some(i)
  {
    IndexOfIsFirst(text, needle, i);
    IndexOfOccurs(text, needle);
  }

  /** An occurrence that starts in `part` and would end in it too. */
  lemma {:induction false} NotWithin(text: string, needle: string, part: string, at: nat, j: nat)
    requires !Contains(part, needle) && at <= j && j + |needle| <= at + |part| <= |text|
    requires forall k :: 0 <= k < |part| ==> part[k] == text[at + k]
    ensures !OccursAt(text, needle, j)
  {
    assert !OccursAt(part, needle, j - at);
    assert forall k {:trigger needle[k]} :: 0 <= k < |needle| ==> part[j - at + k] == text[j + k];
  }

  lemma {:induction false} OpenIsFirst(p: string, rest: string)
    requires !Contains(p, OPEN)
    ensures IndexOf(p + (OPEN + rest), OPEN) == Some(|p|)
  {
    var text := p + (OPEN + rest);
    assert forall k :: 0 <= k < |OPEN| ==> text[|p| + k] == OPEN[k];
    forall j | 0 <= j < |p|
      ensures !OccursAt(text, OPEN, j)
    {
      if j + |OPEN| <= |p| {
        NotWithin(text, OPEN, p, 0, j);
      } else {
        assert text[j + (|p| - j)] == '<' != OPEN[|p| - j];
      }
    }
    FirstIs(text, OPEN, |p|);
  }

  lemma {:induction false} CloseIsFirst(thought: string, rest: string)
    requires !Contains(thought, CLOSE)
    ensures IndexOf(OPEN + (thought + (CLOSE + rest)), CLOSE) == Some(|OPEN| + |thought|)
  {
    var text, n := OPEN + (thought + (CLOSE + rest)), |OPEN| + |thought|;
    assert forall k :: 0 <= k < |CLOSE| ==> text[n + k] == CLOSE[k];
    forall j | 0 <= j < n
      ensures !OccursAt(text, CLOSE, j)
    {
      if j == 0 {
        assert text[j + 1] == OPEN[1] != CLOSE[1];
      } else if j < |OPEN| {
        assert text[j + 0] == OPEN[j] != CLOSE[0];
      } else if j + |CLOSE| <= n {
        NotWithin(text, CLOSE, thought, |OPEN|, j);
      } else {
        assert text[j + (n - j)] == '<' != CLOSE[n - j];
      }
    }
    FirstIs(text, CLOSE, n);
  }

  lemma {:induction false} Parts(p: string, rest: string)
    ensures (p + rest)[..|p|] == p && (p + rest)[|p|..] == rest
  {
  }

  lemma {:induction false} CutStep(text: string, i: nat, at: nat, open: string, close: string)
    requires close != "" && IndexOf(text, open) == Some(i) && IndexOf(text[i..], close) == Some(at)
    ensures Cut(text, open, close) == Cut(text[..i] + text[i..][at + |close|..], open, close)
  {
  }

  lemma {:induction false} CutOne(p: string, block: string, at: nat, open: string, close: string)
    requires close != "" && IndexOf(p + block, open) == Some(|p|) && IndexOf(block, close) == Some(at)
    ensures Cut(p + block, open, close) == Cut(p + block[at + |close|..], open, close)
  {
    Parts(p, block);
    CutStep(p + block, |p|, at, open, close);
  }

  /** One closed block is taken out. */
  lemma {:induction false} StripOne(p: string, thought: string, rest: string)
    requires !Contains(p, OPEN) && !Contains(thought, CLOSE)
    ensures Stripped(p + (OPEN + (thought + (CLOSE + rest)))) == Stripped(p + rest)
  {
    var block := OPEN + (thought + (CLOSE + rest));
    OpenIsFirst(p, thought + (CLOSE + rest));
    CloseIsFirst(thought, rest);
    assert block[|OPEN| + |thought| + |CLOSE|..] == rest;
    CutOne(p, block, |OPEN| + |thought|, OPEN, CLOSE);
  }

  lemma {:induction false} StrippedClean(text: string)
    requires !Contains(text, OPEN)
    ensures Stripped(text) == text
  {
    AbsentIsClean(text, OPEN);
  }

  lemma {:induction false} NoisyUnfolds(done: string, blocks: seq<Block>, last: string)
    requires blocks != []
    ensures var p, rest := done + blocks[0].prose, Noisy(blocks[1..], last);
      done + Noisy(blocks, last) == p + (OPEN + (blocks[0].thought + (CLOSE + rest)))
      && done + Prose(blocks, last) == p + Prose(blocks[1..], last)
  {
  }

  /** Whatever the blocks say, taking them out leaves the prose. */
  lemma {:induction false} StripRoundTrip(done: string, blocks: seq<Block>, last: string)
    requires ThoughtsClose(blocks) && !Contains(done + Prose(blocks, last), OPEN)
    ensures Stripped(done + Noisy(blocks, last)) == done + Prose(blocks, last)
    decreases |blocks|
  {
    if blocks == [] {
      StrippedClean(done + last);
    } else {
      var p := done + blocks[0].prose;
      NoisyUnfolds(done, blocks, last);
      PrefixIsClean(p, Prose(blocks[1..], last));
      StripOne(p, blocks[0].thought, Noisy(blocks[1..], last));
      StripRoundTrip(p, blocks[1..], last);
    }
  }

  lemma {:induction false} PartIsClean(text: string, a: nat, b: nat)
    requires a <= b <= |text| && !Contains(text, OPEN)
    ensures !Contains(text[a..b], OPEN)
  {
    if Contains(text[a..b], OPEN) {
      var j :| OccursAt(text[a..b], OPEN, j);
      OccursInPart(text, a, b, OPEN, j);
    }
  }

  lemma {:induction false} PrefixIsClean(p: string, rest: string)
    requires !Contains(p + rest, OPEN)
    ensures !Contains(p, OPEN)
  {
    PartIsClean(p + rest, 0, |p|);
    assert (p + rest)[0..|p|] == p;
  }

  // ---- the whole recovery ----

  function TrimPrefix(text: string, prefix: string): string {
    if prefix <= text then text[|prefix|..] else text
  }

  function TrimSuffix(text: string, suffix: string): string {
    if |suffix| <= |text| && text[|text| - |suffix|..] == suffix then text[..|text| - |suffix|] else text
  }

  function Unfenced(text: string): string {
    TrimSpace(TrimSuffix(TrimPrefix(TrimPrefix(text, "```json"), "```"), "```"))
  }

  /** What ParsePlanningArtifact hands to the JSON decoder; None is the empty-file error. */
  function Candidate(raw: string): Option<string> {
    if TrimSpace(raw) == "" then None
    else
      var text := Unfenced(Stripped(TrimSpace(raw)));
      Some(TrimSpace(match Extracted(text) case Some(found) => found case None => text))
  }

  method RecoverArtifact(raw: string) returns (candidate: Option<string>)
    ensures candidate == Candidate(raw)
  {
    var trimmed := TrimSpace(raw);
    if trimmed == "" {
      return None;
    }
    trimmed := StripReasoning(trimmed);
    trimmed := TrimPrefix(trimmed, "```json");
    trimmed := TrimPrefix(trimmed, "```");
    trimmed := TrimSuffix(trimmed, "```");
    trimmed := TrimSpace(trimmed);
    var found := ExtractJSONObject(trimmed);
    if found.Some? {
      trimmed := found.value;
    }
    return Some(TrimSpace(trimmed));
  }

  /** The object stands at `from`, with no opening brace before it. */
  predicate CarriesAt(text: string, obj: string, from: int) {
    OccursAt(text, obj, from) && forall i :: 0 <= i < from ==> text[i] != '{'
  }

  ghost predicate Carries(text: string, obj: string) {
    exists from :: CarriesAt(text, obj, from)
  }

  predicate Braced(obj: string) {
    |obj| >= 2 && obj[0] == '{' && obj[|obj| - 1] == '}'
  }

  /** Cutting at the ends, short of a brace, keeps the object. */
  lemma {:induction false} CutKeeps(text: string, obj: string, a: nat, b: nat)
    requires Carries(text, obj) && Braced(obj) && a <= b <= |text|
    requires forall i :: 0 <= i < a ==> text[i] != '{'
    requires forall i :: b <= i < |text| ==> text[i] != '}'
    ensures Carries(text[a..b], obj)
  {
    var from :| CarriesAt(text, obj, from);
    var part := text[a..b];
    assert text[from + 0] == obj[0] && text[from + (|obj| - 1)] == obj[|obj| - 1];
    assert forall k {:trigger obj[k]} :: 0 <= k < |obj| ==> part[from - a + k] == text[from + k];
    assert CarriesAt(part, obj, from - a);
  }

  lemma {:induction false} SpaceKeeps(text: string, obj: string)
    requires Carries(text, obj) && Braced(obj)
    ensures Carries(TrimSpace(text), obj)
  {
    var a, b := TrimCuts(text);
    CutKeeps(text, obj, a, b);
  }

  lemma {:induction false} FenceKeeps(text: string, obj: string, prefix: string)
    requires Carries(text, obj) && Braced(obj) && '{' !in prefix
    ensures Carries(TrimPrefix(text, prefix), obj)
  {
    if prefix <= text {
      assert forall i :: 0 <= i < |prefix| ==> text[i] == prefix[i];
      CutKeeps(text, obj, |prefix|, |text|);
      assert text[|prefix|..] == text[|prefix|..|text|];
    }
  }

  lemma {:induction false} UnfencedKeeps(text: string, obj: string)
    requires Carries(text, obj) && Braced(obj)
    ensures Carries(Unfenced(text), obj)
  {
    FenceKeeps(text, obj, "```json");
    FenceKeeps(TrimPrefix(text, "```json"), obj, "```");
    var open := TrimPrefix(TrimPrefix(text, "```json"), "```");
    var shut := TrimSuffix(open, "```");
    if shut != open {
      assert forall i :: |open| - 3 <= i < |open| ==> open[i] == open[|open| - 3..][i - (|open| - 3)];
      CutKeeps(open, obj, 0, |open| - 3);
      assert shut == open[0..|open| - 3];
    }
    SpaceKeeps(shut, obj);
  }

  /** A braced text is not trimmed. */
  lemma {:induction false} BracedStays(obj: string)
    requires Braced(obj)
    ensures TrimSpace(obj) == obj
  {
    var a, b := TrimCuts(obj);
    assert !IsSpace(obj[0]) && !IsSpace(obj[|obj| - 1]);
    assert obj[0..|obj|] == obj;
  }

  lemma {:induction false} PrintIsBraced(obj: Json)
    requires obj.Obj?
    ensures Braced(Print(obj))
  {
    assert Print(obj) == "{" + (obj.inner + (PrintMembers(obj.members) + "}"));
  }

  // ---- what stands behind the object ----

  /** A head without an opening mark, whose last character is in no mark, is left alone by the search. */
  lemma {:induction false} IndexBehind(head: string, tail: string, open: string)
    requires !Contains(head, open) && (head == "" || head[|head| - 1] !in open)
    ensures var i := IndexOf(tail, open);
      IndexOf(head + tail, open) == if i.None? then None else Some(|head| + i.value)
    decreases |head|
  {
    hide IndexOf;
    if head == "" {
      assert head + tail == tail;
    } else {
      NotAtFront(head, tail, open);
      IndexSkips(head + tail, open);
      DropFront(head, tail, 1);
      RestIsClean(head, open);
      IndexBehind(head[1..], tail, open);
    }
  }

  lemma {:induction false} IndexSkips(text: string, open: string)
    requires text != "" && !OccursAt(text, open, 0)
    ensures var i := IndexOf(text[1..], open);
      IndexOf(text, open) == if i.None? then None else Some(1 + i.value)
  {
  }

  lemma {:induction false} RestIsClean(text: string, open: string)
    requires text != "" && !Contains(text, open)
    ensures !Contains(text[1..], open)
  {
    if Contains(text[1..], open) {
      var j :| OccursAt(text[1..], open, j);
      OccursInTail(text, open, j + 1);
    }
  }

  lemma {:induction false} NotAtFront(head: string, tail: string, open: string)
    requires !Contains(head, open) && head != "" && head[|head| - 1] !in open
    ensures !OccursAt(head + tail, open, 0)
  {
    var text := head + tail;
    if |open| <= |head| {
      NotWithin(text, open, head, 0, 0);
    } else {
      assert open[|head| - 1] in open && text[0 + (|head| - 1)] == head[|head| - 1];
    }
  }

  lemma {:induction false} Associate(a: string, b: string, c: string)
    ensures (a + b) + c == a + (b + c)
  {
  }

  lemma {:induction false} CutEnd(p: string, block: string, open: string, close: string)
    requires close != "" && IndexOf(p + block, open) == Some(|p|) && IndexOf(block, close).None?
    ensures Cut(p + block, open, close) == p
  {
    Parts(p, block);
  }

  lemma {:induction false} CutNone(text: string, open: string, close: string)
    requires close != "" && IndexOf(text, open).None?
    ensures Cut(text, open, close) == text
  {
  }

  /** Cutting goes on behind such a head as if it were not there. */
  lemma {:induction false} CutBehind(head: string, tail: string, open: string, close: string)
    requires close != "" && !Contains(head, open) && (head == "" || head[|head| - 1] !in open)
    ensures Cut(head + tail, open, close) == head + Cut(tail, open, close)
    decreases |tail|, 1
  {
    IndexBehind(head, tail, open);
    var start := IndexOf(tail, open);
    if start.None? {
      CutNone(tail, open, close);
      CutNone(head + tail, open, close);
    } else {
      assert tail == tail[..start.value] + tail[start.value..];
      CutBehindBlock(head, tail[..start.value], tail[start.value..], open, close);
    }
  }

  lemma {:induction false} CutBehindBlock(head: string, p: string, block: string, open: string, close: string)
    requires close != "" && !Contains(head, open) && (head == "" || head[|head| - 1] !in open)
    requires IndexOf(p + block, open) == Some(|p|) && IndexOf(head + (p + block), open) == Some(|head + p|)
    ensures Cut(head + (p + block), open, close) == head + Cut(p + block, open, close)
    decreases |p + block|, 0
  {
    hide Cut;
    Associate(head, p, block);
    var end := IndexOf(block, close);
    if end.None? {
      CutEnd(p, block, open, close);
      CutEnd(head + p, block, open, close);
    } else {
      var behind := block[end.value + |close|..];
      CutOne(p, block, end.value, open, close);
      CutOne(head + p, block, end.value, open, close);
      Associate(head, p, behind);
      CutBehind(head, p + behind, open, close);
    }
  }

  lemma {:induction false} StripBehind(done: string, blocks: seq<Block>, last: string, tail: string)
    requires ThoughtsClose(blocks) && !Contains(done + Prose(blocks, last), OPEN)
    requires last != "" && last[|last| - 1] == '}'
    ensures Stripped(done + (Noisy(blocks, last) + tail)) == (done + Prose(blocks, last)) + Stripped(tail)
    decreases |blocks|
  {
    if blocks == [] {
      Associate(done, last, tail);
      assert (done + last)[|done + last| - 1] == '}' && '}' !in OPEN;
      CutBehind(done + last, tail, OPEN, CLOSE);
    } else {
      var p := done + blocks[0].prose;
      NoisyUnfolds(done, blocks, last);
      NoisyThenTail(done, blocks, last, tail);
      PrefixIsClean(p, Prose(blocks[1..], last));
      StripOne(p, blocks[0].thought, Noisy(blocks[1..], last) + tail);
      StripBehind(p, blocks[1..], last, tail);
    }
  }

  lemma {:induction false} NoisyThenTail(done: string, blocks: seq<Block>, last: string, tail: string)
    requires blocks != []
    ensures var b := blocks[0];
      done + (Noisy(blocks, last) + tail)
      == (done + b.prose) + (OPEN + (b.thought + (CLOSE + (Noisy(blocks[1..], last) + tail))))
  {
    var b, more := blocks[0], Noisy(blocks[1..], last);
    Associate(CLOSE, more, tail);
    Associate(b.thought, CLOSE + more, tail);
    Associate(OPEN, b.thought + (CLOSE + more), tail);
    Associate(b.prose, OPEN + (b.thought + (CLOSE + more)), tail);
    Associate(done, b.prose, OPEN + (b.thought + (CLOSE + (more + tail))));
  }

  // ---- trimming the raw text ----

  lemma {:induction false} TrimLeftJoin(head: string, tail: string)
    requires head != "" && !IsSpace(head[|head| - 1])
    ensures TrimLeft(head + tail) == TrimLeft(head) + tail
    ensures TrimLeft(head) != "" && TrimLeft(head)[|TrimLeft(head)| - 1] == head[|head| - 1]
    decreases |head|
  {
    if IsSpace(head[0]) {
      assert (head + tail)[1..] == head[1..] + tail;
      TrimLeftJoin(head[1..], tail);
    }
  }

  lemma {:induction false} TrimAround(head: string, tail: string)
    requires head != "" && !IsSpace(head[|head| - 1])
    ensures TrimSpace(head + tail) == TrimLeft(head) + TrimRight(tail)
  {
    TrimLeftJoin(head, tail);
    TrimRightStops(TrimLeft(head), tail);
  }

  lemma {:induction false} NoisyEnds(blocks: seq<Block>, last: string)
    requires last != ""
    ensures Noisy(blocks, last) != "" && Noisy(blocks, last)[|Noisy(blocks, last)| - 1] == last[|last| - 1]
    decreases |blocks|
  {
    if blocks != [] {
      NoisyEnds(blocks[1..], last);
    }
  }

  /** Whitespace taken off the front comes off the first stretch of prose. */
  lemma {:induction false} TrimFront(blocks: seq<Block>, last: string) returns (blocks': seq<Block>, last': string, a: nat)
    requires ThoughtsClose(blocks) && last != "" && last[|last| - 1] == '}'
    ensures TrimLeft(Noisy(blocks, last)) == Noisy(blocks', last') && ThoughtsClose(blocks')
    ensures last' != "" && last'[|last'| - 1] == '}'
    ensures a <= |Prose(blocks, last)| && Prose(blocks', last') == Prose(blocks, last)[a..]
    ensures forall i :: 0 <= i < a ==> IsSpace(Prose(blocks, last)[i])
  {
    if blocks == [] {
      TrimLeftJoin(last, "");
      blocks', last', a := [], TrimLeft(last), LeftCut(last);
    } else {
      var p, more := blocks[0].prose, blocks[1..];
      var trimmed := Block(TrimLeft(p), blocks[0].thought);
      blocks', last', a := [trimmed] + more, last, LeftCut(p);
      SameThoughts(blocks, trimmed);
      TrimLeftStops(p, OPEN + (trimmed.thought + (CLOSE + Noisy(more, last))));
      NoisyAdds(trimmed, more, last);
      DropFront(p, Prose(more, last), a);
    }
  }

  lemma {:induction false} NoisyAdds(block: Block, blocks: seq<Block>, last: string)
    ensures Noisy([block] + blocks, last)
      == block.prose + (OPEN + (block.thought + (CLOSE + Noisy(blocks, last))))
    ensures Prose([block] + blocks, last) == block.prose + Prose(blocks, last)
  {
    assert ([block] + blocks)[1..] == blocks;
  }

  lemma {:induction false} DropFront(p: string, rest: string, a: nat)
    requires a <= |p|
    ensures (p + rest)[a..] == p[a..] + rest
  {
  }

  lemma {:induction false} SameThoughts(blocks: seq<Block>, first: Block)
    requires blocks != [] && ThoughtsClose(blocks) && first.thought == blocks[0].thought
    ensures ThoughtsClose([first] + blocks[1..])
  {
    var others := [first] + blocks[1..];
    assert forall i :: 0 < i < |blocks| ==> others[i] == blocks[i];
  }

  /** After trimming and taking out the blocks the object still stands behind prose without a brace. */
  lemma {:induction false} StripKeeps(blocks: seq<Block>, last: string, prose: string, obj: string, tail: string)
    requires ThoughtsClose(blocks) && Braced(obj) && '{' !in prose && !Contains(prose + obj, OPEN)
    requires Prose(blocks, last) == prose + obj && last != ""
    ensures Carries(Stripped(TrimSpace(Noisy(blocks, last) + tail)), obj)
  {
    LastEnds(blocks, last, prose, obj);
    var a := StripTrimmed(blocks, last, tail);
    CarriedBehind(prose, obj, a, Stripped(TrimRight(tail)));
  }

  lemma {:induction false} LastEnds(blocks: seq<Block>, last: string, prose: string, obj: string)
    requires Braced(obj) && Prose(blocks, last) == prose + obj && last != ""
    ensures last[|last| - 1] == '}'
  {
    LastApart(blocks, last);
    assert (prose + obj)[|prose + obj| - 1] == obj[|obj| - 1];
    assert (Prose(blocks, "") + last)[|Prose(blocks, "") + last| - 1] == last[|last| - 1];
  }

  lemma {:induction false} StripTrimmed(blocks: seq<Block>, last: string, tail: string) returns (a: nat)
    requires ThoughtsClose(blocks) && !Contains(Prose(blocks, last), OPEN) && last != "" && last[|last| - 1] == '}'
    ensures a <= |Prose(blocks, last)| && forall i :: 0 <= i < a ==> IsSpace(Prose(blocks, last)[i])
    ensures Stripped(TrimSpace(Noisy(blocks, last) + tail)) == Prose(blocks, last)[a..] + Stripped(TrimRight(tail))
  {
    NoisyEnds(blocks, last);
    TrimAround(Noisy(blocks, last), tail);
    var blocks', last', n := TrimFront(blocks, last);
    a := n;
    SuffixIsClean(Prose(blocks, last), a);
    Nothing(Prose(blocks', last'));
    Nothing(Noisy(blocks', last') + TrimRight(tail));
    StripBehind("", blocks', last', TrimRight(tail));
  }

  lemma {:induction false} Nothing(text: string)
    ensures "" + text == text
  {
  }

  lemma {:induction false} SuffixIsClean(text: string, a: nat)
    requires a <= |text| && !Contains(text, OPEN)
    ensures !Contains(text[a..], OPEN)
  {
    PartIsClean(text, a, |text|);
    assert text[a..] == text[a..|text|];
  }

  lemma {:induction false} CarriedBehind(prose: string, obj: string, a: nat, end: string)
    requires Braced(obj) && '{' !in prose && a <= |prose + obj|
    requires forall i :: 0 <= i < a ==> IsSpace((prose + obj)[i])
    ensures Carries((prose + obj)[a..] + end, obj)
  {
    var all := prose + obj;
    var text := all[a..] + end;
    assert all[|prose|] == '{' && !IsSpace('{');
    assert a <= |prose|;
    assert forall k {:trigger obj[k]} :: 0 <= k < |obj| ==> text[|prose| - a + k] == obj[k];
    assert CarriesAt(text, obj, |prose| - a);
  }

  lemma {:induction false} LastApart(blocks: seq<Block>, last: string)
    ensures Prose(blocks, last) == Prose(blocks, "") + last
    decreases |blocks|
  {
    if blocks != [] {
      LastApart(blocks[1..], last);
    }
  }

  lemma {:induction false} ExtractCarried(text: string, obj: Json)
    requires obj.Obj? && Valid(obj) && Carries(text, Print(obj))
    ensures Extracted(text) == Some(Print(obj))
  {
    var printed := Print(obj);
    var from :| CarriesAt(text, printed, from);
    var to := from + |printed|;
    assert text[from..to] == printed;
    assert text == text[..from] + (text[from..to] + text[to..]);
    ExtractRoundTrip(text[..from], obj, text[to..]);
  }

  // ---- think marks inside the object ----

  lemma {:induction false} TrimIsClean(text: string)
    requires !Contains(text, OPEN)
    ensures !Contains(TrimSpace(text), OPEN)
  {
    var a, b := TrimCuts(text);
    PartIsClean(text, a, b);
  }

  lemma {:induction false} FenceIsClean(text: string, prefix: string)
    requires !Contains(text, OPEN)
    ensures !Contains(TrimPrefix(text, prefix), OPEN)
  {
    if prefix <= text {
      PartIsClean(text, |prefix|, |text|);
      assert text[|prefix|..] == text[|prefix|..|text|];
    }
  }

  lemma {:induction false} UnfencedIsClean(text: string)
    requires !Contains(text, OPEN)
    ensures !Contains(Unfenced(text), OPEN)
  {
    FenceIsClean(text, "```json");
    FenceIsClean(TrimPrefix(text, "```json"), "```");
    var open := TrimPrefix(TrimPrefix(text, "```json"), "```");
    var shut := TrimSuffix(open, "```");
    if shut != open {
      PartIsClean(open, 0, |open| - 3);
      assert shut == open[0..|open| - 3];
    }
    TrimIsClean(shut);
  }

  lemma {:induction false} ExtractIsClean(text: string)
    requires !Contains(text, OPEN) && Extracted(text).Some?
    ensures !Contains(Extracted(text).value, OPEN)
  {
    var start := FirstBrace(text);
    var end := CloseAt(Scan(0, false, false), text[start..]);
    PartIsClean(text, start, start + end.value);
  }

  /** No text with an opening think mark is ever handed to the decoder, whatever the raw text. */
  lemma {:induction false} CandidateIsClean(raw: string)
    requires Candidate(raw).Some?
    ensures !Contains(Candidate(raw).value, OPEN)
  {
    var text := Unfenced(Stripped(TrimSpace(raw)));
    StrippedIsClean(TrimSpace(raw));
    UnfencedIsClean(Stripped(TrimSpace(raw)));
    if Extracted(text).Some? {
      ExtractIsClean(text);
      TrimIsClean(Extracted(text).value);
    } else {
      TrimIsClean(text);
    }
  }

  lemma {:induction false} JoinIsClean(prose: string, obj: string)
    requires !Contains(prose, OPEN) && !Contains(obj, OPEN) && obj != "" && obj[0] == '{'
    ensures !Contains(prose + obj, OPEN)
  {
    var text := prose + obj;
    forall j
      ensures !OccursAt(text, OPEN, j)
    {
      if 0 <= j && j + |OPEN| <= |prose| {
        NotWithin(text, OPEN, prose, 0, j);
      } else if |prose| <= j && j + |OPEN| <= |text| {
        NotWithin(text, OPEN, obj, |prose|, j);
      } else if 0 <= j < |prose| && j + |OPEN| <= |text| {
        assert text[j + (|prose| - j)] == '{' != OPEN[|prose| - j];
      }
    }
  }

  /** Reasoning blocks anywhere before the object's end, prose without an opening brace or mark before it,
      anything at all after it, code fences and whitespace around it: exactly the printed object comes back,
      if and only if the object itself holds no opening think mark, say in one of its strings. */
  lemma {:induction false} RecoveryRoundTrip(blocks: seq<Block>, last: string, prose: string, obj: Json, tail: string)
    requires obj.Obj? && Valid(obj) && ThoughtsClose(blocks) && '{' !in prose && !Contains(prose, OPEN)
    requires Prose(blocks, last) == prose + Print(obj) && last != ""
    ensures Candidate(Noisy(blocks, last) + tail) == Some(Print(obj)) <==> !Contains(Print(obj), OPEN)
  {
    var printed, raw := Print(obj), Noisy(blocks, last) + tail;
    PrintIsBraced(obj);
    if Contains(printed, OPEN) {
      if Candidate(raw).Some? {
        CandidateIsClean(raw);
      }
    } else {
      var text := Stripped(TrimSpace(raw));
      JoinIsClean(prose, printed);
      StripKeeps(blocks, last, prose, printed, tail);
      UnfencedKeeps(text, printed);
      ExtractCarried(Unfenced(text), obj);
      BracedStays(printed);
      assert Stripped("") == "" && !Carries("", printed);
    }
  }
}
