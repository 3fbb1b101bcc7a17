/** Trimming as Go's strings package does it, and the optional value several modules return. */
module Text {

  datatype Option<+T> = None | Some(value: T)

  predicate IsSpace(c: char) {
    c in {'\t', '\n', '\U{0B}', '\U{0C}', '\r', ' ', '\U{85}', '\U{A0}', '\U{1680}', '\U{2028}', '\U{2029}',
          '\U{202F}', '\U{205F}', '\U{3000}'}
    || '\U{2000}' <= c <= '\U{200A}'
  }

  function TrimLeft(text: string): string {
    if text != "" && IsSpace(text[0]) then TrimLeft(text[1..]) else text
  }

  function TrimRight(text: string): string {
    if text != "" && IsSpace(text[|text| - 1]) then TrimRight(text[..|text| - 1]) else text
  }

  function TrimSpace(text: string): string {
    TrimRight(TrimLeft(text))
  }

  predicate Blank(text: string) {
    TrimSpace(text) == ""
  }

  function LeftCut(text: string): (n: nat)
    ensures n <= |text| && TrimLeft(text) == text[n..] && forall i :: 0 <= i < n ==> IsSpace(text[i])
  {
    if text != "" && IsSpace(text[0]) then
      var n := LeftCut(text[1..]);
      assert text[1..][n..] == text[n + 1..];
      assert forall i :: 0 < i < n + 1 ==> text[i] == text[1..][i - 1];
      n + 1
    else 0
  }

  function RightCut(text: string): (n: nat)
    ensures n <= |text| && TrimRight(text) == text[..n] && forall i :: n <= i < |text| ==> IsSpace(text[i])
  {
    if text != "" && IsSpace(text[|text| - 1]) then
      var n := RightCut(text[..|text| - 1]);
      assert text[..|text| - 1][..n] == text[..n];
      n
    else |text|
  }

  /** TrimSpace takes whitespace off both ends. */
  lemma {:induction false} TrimCuts(text: string) returns (a: nat, b: nat)
    ensures a <= b <= |text| && TrimSpace(text) == text[a..b]
    ensures forall i :: 0 <= i < a ==> IsSpace(text[i])
    ensures forall i :: b <= i < |text| ==> IsSpace(text[i])
    ensures a < b ==> !IsSpace(text[a]) && !IsSpace(text[b - 1])
  {
    hide *;
    a := LeftCut(text);
    b := a + RightCut(text[a..]);
    LeftStops(text);
    RightStops(text[a..]);
    TrimSpaceCuts(text);
    RightPart(text, a, b);
  }

  lemma {:induction false} TrimSpaceCuts(text: string)
    ensures TrimSpace(text) == text[LeftCut(text)..][..RightCut(text[LeftCut(text)..])]
  {
  }

  lemma {:induction false} RightPart(text: string, a: nat, b: nat)
    requires a <= b <= |text|
    ensures text[a..][..b - a] == text[a..b]
    ensures forall i :: b <= i < |text| ==> text[i] == text[a..][i - a]
  {
  }

  lemma {:induction false} LeftStops(text: string)
    ensures LeftCut(text) < |text| ==> !IsSpace(text[LeftCut(text)])
  {
    if text != "" && IsSpace(text[0]) {
      LeftStops(text[1..]);
    }
  }

  lemma {:induction false} RightStops(text: string)
    ensures RightCut(text) > 0 ==> !IsSpace(text[RightCut(text) - 1])
  {
    if text != "" && IsSpace(text[|text| - 1]) {
      RightStops(text[..|text| - 1]);
    }
  }

  lemma {:induction false} TrimLeftStops(p: string, x: string)
    requires x != "" && !IsSpace(x[0])
    ensures TrimLeft(p + x) == TrimLeft(p) + x
    decreases |p|
  {
    if p == "" {
      assert p + x == x && TrimLeft(p) + x == x;
    } else if IsSpace(p[0]) {
      assert (p + x)[1..] == p[1..] + x;
      TrimLeftStops(p[1..], x);
    }
  }

  lemma {:induction false} TrimRightStops(x: string, s: string)
    requires x != "" && !IsSpace(x[|x| - 1])
    ensures TrimRight(x + s) == x + TrimRight(s)
    decreases |s|
  {
    if s == "" {
      assert x + s == x && x + TrimRight(s) == x;
    } else if IsSpace(s[|s| - 1]) {
      assert (x + s)[..|x + s| - 1] == x + s[..|s| - 1];
      TrimRightStops(x, s[..|s| - 1]);
    }
  }
}
