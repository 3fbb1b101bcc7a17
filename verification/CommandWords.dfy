/** The splitter on every way of writing a word: bare, in single or in double quotes, or put together of such pieces. */
module CommandWords {
  import opened Text
  import opened CommandLine

  datatype Piece = Bare(text: string) | In(quote: char, text: string)

  predicate Ordinary(c: char) {
    !Separator(c) && c != '\'' && c != '"'
  }

  /** A bare piece is not empty and holds neither quotes nor whitespace; in quotes everything but that quote may stand. */
  predicate ValidPiece(p: Piece) {
    match p
    case Bare(text) => text != "" && forall i :: 0 <= i < |text| ==> Ordinary(text[i])
    case In(quote, text) => quote in {'\'', '"'} && quote !in text
  }

  predicate ValidPieces(ps: seq<Piece>) {
    forall i :: 0 <= i < |ps| ==> ValidPiece(ps[i])
  }

  function PieceText(p: Piece): string {
    match p
    case Bare(text) => text
    case In(quote, text) => [quote] + (text + [quote])
  }

  function WordText(ps: seq<Piece>): string {
    if ps == [] then "" else PieceText(ps[0]) + WordText(ps[1..])
  }

  function Word(ps: seq<Piece>): string {
    if ps == [] then "" else ps[0].text + Word(ps[1..])
  }

  // A word with the whitespace before it.
  datatype Laid = Laid(space: string, pieces: seq<Piece>)

  predicate ValidLine(words: seq<Laid>, first: bool)
    decreases |words|
  {
    words == []
    || (AllSeparators(words[0].space) && (first || words[0].space != "") && words[0].pieces != []
        && ValidPieces(words[0].pieces) && ValidLine(words[1..], false))
  }

  function LineText(words: seq<Laid>): string {
    if words == [] then "" else words[0].space + (WordText(words[0].pieces) + LineText(words[1..]))
  }

  function Values(words: seq<Laid>): seq<string> {
    if words == [] then [] else [Word(words[0].pieces)] + Values(words[1..])
  }

  lemma {:induction false} CopiesInside(st: Split, quote: char, text: string)
    requires st.quote == Some(quote) && quote !in text
    ensures Steps(st, text) == st.(current := st.current + text)
    decreases |text|
  {
    if text == "" {
      assert st.current + text == st.current;
    } else {
      assert text[0] in text;
      CopiesInside(st.(current := st.current + [text[0]]), quote, text[1..]);
      assert st.current + [text[0]] + text[1..] == st.current + text;
    }
  }

  lemma {:induction false} ReadsPiece(st: Split, p: Piece)
    requires st.quote.None? && ValidPiece(p)
    ensures Steps(st, PieceText(p)) == st.(current := st.current + p.text, inWord := true)
  {
    match p {
      case Bare(text) => ReadsBare(st, text);
      case In(quote, text) =>
        var inside := st.(quote := Some(quote), inWord := true);
        assert PieceText(p)[0] == quote && PieceText(p)[1..] == text + [quote];
        assert Step(st, quote) == inside;
        StepsAppend(inside, text, [quote]);
        CopiesInside(inside, quote, text);
        OneStep(Steps(inside, text), quote);
    }
  }

  lemma {:induction false} Associate(a: string, b: string, c: string)
    ensures (a + b) + c == a + (b + c)
  {
  }

  lemma {:induction false} ReadsPieces(st: Split, ps: seq<Piece>)
    requires st.quote.None? && ValidPieces(ps)
    ensures Steps(st, WordText(ps)) == st.(current := st.current + Word(ps), inWord := st.inWord || ps != [])
    decreases |ps|
  {
    if ps == [] {
      assert st.current + "" == st.current;
    } else {
      var next := st.(current := st.current + ps[0].text, inWord := true);
      assert ValidPiece(ps[0]) && ValidPieces(ps[1..]);
      hide Steps, PieceText, ValidPiece, ValidPieces;
      StepsAppend(st, PieceText(ps[0]), WordText(ps[1..]));
      ReadsPiece(st, ps[0]);
      ReadsPieces(next, ps[1..]);
      Associate(st.current, ps[0].text, Word(ps[1..]));
    }
  }

  /** Where the splitter stands after a line: the last word is still open. */
  function Standing(st: Split, words: seq<Laid>): Split
    decreases |words|
  {
    if words == [] then st
    else
      var done := if st.inWord then st.parts + [st.current] else st.parts;
      Standing(Split(done, Word(words[0].pieces), true, None), words[1..])
  }

  lemma {:induction false} ReadsLine(st: Split, words: seq<Laid>, first: bool)
    requires st.quote.None? && ValidLine(words, first) && (first <==> !st.inWord) && (st.inWord || st.current == "")
    ensures Steps(st, LineText(words)) == Standing(st, words)
    decreases |words|
  {
    if words != [] {
      var space, text, rest := words[0].space, WordText(words[0].pieces), LineText(words[1..]);
      var done := if st.inWord then st.parts + [st.current] else st.parts;
      var before := Split(done, "", false, None);
      StepsAppend(st, space, text + rest);
      SkipsSpace(st, space);
      assert Steps(st, space) == before;
      StepsAppend(before, text, rest);
      ReadsPieces(before, words[0].pieces);
      assert "" + Word(words[0].pieces) == Word(words[0].pieces);
      hide Steps, WordText, Word;
      ReadsLine(Split(done, Word(words[0].pieces), true, None), words[1..], false);
    }
  }

  lemma {:induction false} StandingParts(st: Split, words: seq<Laid>)
    requires st.quote.None?
    ensures Standing(st, words).quote.None? && (Standing(st, words).inWord <==> st.inWord || words != [])
    ensures Finish(Standing(st, words)) == Some((if st.inWord then st.parts + [st.current] else st.parts) + Values(words))
    decreases |words|
  {
    var done := if st.inWord then st.parts + [st.current] else st.parts;
    if words == [] {
      assert done + [] == done;
    } else {
      StandingParts(Split(done, Word(words[0].pieces), true, None), words[1..]);
      assert (done + [Word(words[0].pieces)]) + Values(words[1..]) == done + Values(words);
    }
  }

  /** Every way of writing a line of words is read back as these words, whatever whitespace is around them. */
  lemma {:induction false} SplitReadsWords(words: seq<Laid>, space: string)
    requires ValidLine(words, true) && AllSeparators(space)
    ensures SplitCommand(LineText(words) + space) == Some(Values(words))
  {
    var st := Standing(START, words);
    StepsAppend(START, LineText(words), space);
    ReadsLine(START, words, true);
    StandingParts(START, words);
    assert [] + Values(words) == Values(words);
    OpenWord(START, words);
    SkipsSpace(st, space);
  }

  lemma {:induction false} OpenWord(st: Split, words: seq<Laid>)
    requires st.inWord || st.current == ""
    ensures Standing(st, words).inWord || Standing(st, words).current == ""
    decreases |words|
  {
    if words != [] {
      var done := if st.inWord then st.parts + [st.current] else st.parts;
      OpenWord(Split(done, Word(words[0].pieces), true, None), words[1..]);
    }
  }

  /** A quote that is not closed, on its own or behind a word, is refused. */
  lemma {:induction false} UnclosedIsRefused(words: seq<Laid>, space: string, quote: char, text: string)
    requires ValidLine(words, true) && AllSeparators(space) && quote in {'\'', '"'} && quote !in text
    ensures SplitCommand(LineText(words) + (space + ([quote] + text))).None?
  {
    var st := Standing(START, words);
    StepsAppend(START, LineText(words), space + ([quote] + text));
    ReadsLine(START, words, true);
    StandingParts(START, words);
    OpenWord(START, words);
    StepsAppend(st, space, [quote] + text);
    SkipsSpace(st, space);
    var next := Steps(st, space);
    assert ([quote] + text)[0] == quote && ([quote] + text)[1..] == text;
    CopiesInside(Step(next, quote), quote, text);
  }
}
