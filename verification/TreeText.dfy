/** What the two behaviour-tree document formats share: tree definitions and text helpers. */
module TreeText {

  datatype Result<+T> = Ok(value: T) | Err

  /** A behaviour-tree node as a document describes it. */
  datatype Node = Node(kind: string, children: seq<Node>)

  ghost function Size(n: Node): nat {
    1 + Sizes(n.children)
  }

  ghost function Sizes(ns: seq<Node>): nat {
    if ns == [] then 0 else Size(ns[0]) + Sizes(ns[1..])
  }

  predicate IsSpace(c: char) {
    c == ' ' || c == '\n' || c == '\r' || c == '\t'
  }

  /** Nothing but the four characters that both formats take for white space. */
  predicate Blank(s: string) {
    forall c :: c in s ==> c == ' ' || c == '\n' || c == '\r' || c == '\t'
  }

  /** The text without its leading white space. */
  function TrimLeft(text: string): string {
    if text != "" && IsSpace(text[0]) then TrimLeft(text[1..]) else text
  }

  function TrimRight(text: string): string {
    if text != "" && IsSpace(text[|text| - 1]) then TrimRight(text[..|text| - 1]) else text
  }

  function TrimSpec(text: string): string {
    TrimRight(TrimLeft(text))
  }

  predicate StartsWith(text: string, prefix: string) {
    |text| >= |prefix| && text[..|prefix|] == prefix
  }

  /** A text that trimming leaves alone. */
  predicate Tight(text: string) {
    text != "" && !IsSpace(text[0]) && !IsSpace(text[|text| - 1])
  }

  lemma TightIsTrimmed(text: string)
    requires Tight(text)
    ensures TrimSpec(text) == text
  {
  }

  /** The loops that move both ends inwards. */
  method Trim(text: string) returns (trimmed: string)
    ensures trimmed == TrimSpec(text)
    ensures trimmed == "" || Tight(trimmed)
  {
    var first := 0;
    while first < |text| && IsSpace(text[first])
      invariant first <= |text|
      invariant TrimLeft(text) == TrimLeft(text[first..])
    {
      first := first + 1;
    }
    var last := |text|;
    assert TrimLeft(text) == text[first..] == text[first..last];
    while last > first && IsSpace(text[last - 1])
      invariant first <= last <= |text|
      invariant TrimRight(text[first..]) == TrimRight(text[first..last])
    {
      assert text[first..last][..last - first - 1] == text[first..last - 1];
      last := last - 1;
    }
    trimmed := text[first..last];
  }

  lemma {:induction false} TrimLeftKeeps(text: string, c: char)
    requires c in TrimLeft(text)
    ensures c in text
  {
    if text != "" && IsSpace(text[0]) {
      TrimLeftKeeps(text[1..], c);
    }
  }

  lemma {:induction false} TrimRightKeeps(text: string, c: char)
    requires c in TrimRight(text)
    ensures c in text
  {
    if text != "" && IsSpace(text[|text| - 1]) {
      TrimRightKeeps(text[..|text| - 1], c);
    }
  }

  /** Trimming and unquoting invent no characters. */
  lemma TrimKeeps(text: string, c: char)
    ensures c in TrimSpec(text) ==> c in text
    ensures c in Unquote(text) ==> c in text
  {
    if c in TrimSpec(text) {
      TrimRightKeeps(TrimLeft(text), c);
      TrimLeftKeeps(text, c);
    }
  }

  function Unquote(value: string): string {
    if |value| >= 2 &&
      ((value[0] == '"' && value[|value| - 1] == '"') || (value[0] == '\'' && value[|value| - 1] == '\''))
    then value[1..|value| - 1] else value
  }
}
