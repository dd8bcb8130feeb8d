/** The JSON tree documents: recursive descent over a position, a canonical printer, and the
    round trip between them. Numbers keep their text. */
module JsonTree {
  import opened TreeText

  datatype Json =
    | Null
    | Bool(truth: bool)
    | Number(digits: string)
    | Text(text: string)
    | Object(members: map<string, Json>)
    | Array(items: seq<Json>)

  /** A parsed piece and the text after it. */
  datatype Parsed<+T> = Parsed(value: T, rest: string)

  // ---------------------------------------------------------------- grammar

  function Skip(s: string): (rest: string)
    ensures |rest| <= |s|
    ensures rest != "" ==> !IsSpace(rest[0])
  {
    if s != "" && IsSpace(s[0]) then Skip(s[1..]) else s
  }

  predicate Begins(s: string, c: char) {
    s != "" && s[0] == c
  }

  /** The character that a backslash and `c` stand for. */
  function Unescape(c: char): Result<char> {
    if c == '"' || c == '\\' || c == '/' then Ok(c)
    else if c == 'b' then Ok('\U{8}')
    else if c == 'f' then Ok('\U{C}')
    else if c == 'n' then Ok('\n')
    else if c == 'r' then Ok('\r')
    else if c == 't' then Ok('\t')
    else Err
  }

  /** A string literal after its opening quote; `text` is what has been read of it. */
  function StringBody(s: string, text: string): (r: Result<Parsed<string>>)
    ensures r.Ok? ==> |r.value.rest| < |s|
    decreases |s|
  {
    if s == "" then Err
    else if s[0] == '"' then Ok(Parsed(text, s[1..]))
    else if s[0] < ' ' then Err
    else if s[0] != '\\' then StringBody(s[1..], text + [s[0]])
    else if |s| == 1 then Err
    else
      match Unescape(s[1])
      case Ok(c) => StringBody(s[2..], text + [c])
      case Err => Err
  }

  predicate IsDigit(c: char) {
    '0' <= c <= '9'
  }

  function DigitCount(s: string): (n: nat)
    ensures n <= |s|
  {
    if s != "" && IsDigit(s[0]) then 1 + DigitCount(s[1..]) else 0
  }

  /** The length of an integer part, a fraction or an exponent that has its digits; none otherwise. */
  function WithDigits(s: string, before: nat): (n: Result<nat>)
    requires before <= |s|
    ensures n.Ok? ==> before < n.value <= |s|
  {
    var digits := DigitCount(s[before..]);
    if digits == 0 then Err else Ok(before + digits)
  }

  function SignLength(s: string, at: nat): (n: nat)
    requires at <= |s|
    ensures n <= 1 && at + n <= |s|
  {
    if at < |s| && (s[at] == '+' || s[at] == '-') then 1 else 0
  }

  function FractionEnd(s: string, at: nat): (end: Result<nat>)
    requires at <= |s|
    ensures end.Ok? ==> at <= end.value <= |s|
  {
    if at < |s| && s[at] == '.' then WithDigits(s, at + 1) else Ok(at)
  }

  function ExponentEnd(s: string, at: nat): (end: Result<nat>)
    requires at <= |s|
    ensures end.Ok? ==> at <= end.value <= |s|
  {
    if at < |s| && (s[at] == 'e' || s[at] == 'E') then WithDigits(s, at + 1 + SignLength(s, at + 1)) else Ok(at)
  }

  /** The length of the number at the start of a text. */
  function NumberEnd(s: string): (end: Result<nat>)
    requires s != ""
    ensures end.Ok? ==> 0 < end.value <= |s|
  {
    match WithDigits(s, if s[0] == '-' then 1 else 0)
    case Err => Err
    case Ok(whole) =>
      match FractionEnd(s, whole)
      case Err => Err
      case Ok(fraction) => ExponentEnd(s, fraction)
  }

  function Literal(s: string): (r: Result<Parsed<Json>>)
    ensures r.Ok? ==> |r.value.rest| < |s|
  {
    if StartsWith(s, "true") then Ok(Parsed(Bool(true), s[4..]))
    else if StartsWith(s, "false") then Ok(Parsed(Bool(false), s[5..]))
    else if StartsWith(s, "null") then Ok(Parsed(Null, s[4..]))
    else Err
  }

  /** A string, a number or a literal. */
  function Scalar(s: string): (r: Result<Parsed<Json>>)
    requires s != ""
    ensures r.Ok? ==> |r.value.rest| < |s|
  {
    if s[0] == '"' then
      match StringBody(s[1..], "")
      case Ok(body) => Ok(Parsed(Text(body.value), body.rest))
      case Err => Err
    else if s[0] == '-' || IsDigit(s[0]) then
      match NumberEnd(s)
      case Ok(end) => Ok(Parsed(Number(s[..end]), s[end..]))
      case Err => Err
    else Literal(s)
  }

  function Value(s: string): (r: Result<Parsed<Json>>)
    ensures r.Ok? ==> |r.value.rest| < |s|
    decreases |s|, 1
  {
    var t := Skip(s);
    if t == "" then Err
    else if t[0] == '{' then
      if Begins(Skip(t[1..]), '}') then Ok(Parsed(Object(map[]), Skip(t[1..])[1..])) else Members(t[1..], map[])
    else if t[0] == '[' then
      if Begins(Skip(t[1..]), ']') then Ok(Parsed(Array([]), Skip(t[1..])[1..])) else Elements(t[1..], [])
    else Scalar(t)
  }

  /** A member's key and the colon after it. */
  function Key(s: string): (r: Result<Parsed<string>>)
    ensures r.Ok? ==> |r.value.rest| < |s|
  {
    if !Begins(Skip(s), '"') then Err
    else
      match StringBody(Skip(s)[1..], "")
      case Err => Err
      case Ok(key) => if Begins(Skip(key.rest), ':') then Ok(Parsed(key.value, Skip(key.rest)[1..])) else Err
  }

  /** The members of an object, from a key to the closing brace. */
  function Members(s: string, members: map<string, Json>): (r: Result<Parsed<Json>>)
    ensures r.Ok? ==> |r.value.rest| < |s|
    decreases |s|, 0
  {
    match Key(s)
    case Err => Err
    case Ok(key) =>
      match Value(key.rest)
      case Err => Err
      case Ok(value) =>
        if key.value in members then Err
        else
          var more := members[key.value := value.value];
          if Begins(Skip(value.rest), '}') then Ok(Parsed(Object(more), Skip(value.rest)[1..]))
          else if Begins(Skip(value.rest), ',') then Members(Skip(value.rest)[1..], more)
          else Err
  }

  /** The elements of an array, from an element to the closing bracket. */
  function Elements(s: string, items: seq<Json>): (r: Result<Parsed<Json>>)
    ensures r.Ok? ==> |r.value.rest| < |s|
    decreases |s|, 2
  {
    match Value(s)
    case Err => Err
    case Ok(value) =>
      var more := items + [value.value];
      if Begins(Skip(value.rest), ']') then Ok(Parsed(Array(more), Skip(value.rest)[1..]))
      else if Begins(Skip(value.rest), ',') then Elements(Skip(value.rest)[1..], more)
      else Err
  }

  // ---------------------------------------------------------------- trees from values

  function NodeFromJson(v: Json): Result<Node>
    decreases v, 0
  {
    if !v.Object? || "type" !in v.members || !v.members["type"].Text? || v.members["type"].text == "" then Err
    else
      var kind := v.members["type"].text;
      if "child" in v.members && "children" in v.members then Err
      else if "child" in v.members then
        match NodeFromJson(v.members["child"])
        case Ok(child) => Ok(Node(kind, [child]))
        case Err => Err
      else if "children" in v.members then
        if !v.members["children"].Array? then Err
        else
          match NodesFromJson(v.members["children"].items)
          case Ok(children) => Ok(Node(kind, children))
          case Err => Err
      else Ok(Node(kind, []))
  }

  function NodesFromJson(items: seq<Json>): Result<seq<Node>>
    decreases items, 1
  {
    if items == [] then Ok([])
    else
      match NodeFromJson(items[0])
      case Err => Err
      case Ok(first) =>
        match NodesFromJson(items[1..])
        case Ok(more) => Ok([first] + more)
        case Err => Err
  }

  function DocumentFromJson(v: Json): Result<Node> {
    if !v.Object? || "root" !in v.members then Err else NodeFromJson(v.members["root"])
  }

  function Parse(document: string): Result<Node> {
    match Value(document)
    case Err => Err
    case Ok(value) => if Skip(value.rest) == "" then DocumentFromJson(value.value) else Err
  }

  // ---------------------------------------------------------------- printer

  function Escape(c: char): string {
    if c == '"' then "\\\""
    else if c == '\\' then "\\\\"
    else if c == '\U{8}' then "\\b"
    else if c == '\U{C}' then "\\f"
    else if c == '\n' then "\\n"
    else if c == '\r' then "\\r"
    else if c == '\t' then "\\t"
    else [c]
  }

  function EscapeAll(text: string): string {
    if text == "" then "" else Escape(text[0]) + EscapeAll(text[1..])
  }

  function Quote(text: string): string {
    "\"" + EscapeAll(text) + "\""
  }

  /** Whether a node is written with its only child in a field `child`: it may be, wherever the style
      says so. */
  predicate Inlines(n: Node, style: Node -> bool) {
    |n.children| == 1 && style(n)
  }

  function NodeText(n: Node, style: Node -> bool): string
    decreases Size(n), 0
  {
    "{" + Quote("type") + ":" + Quote(n.kind) + "," + FieldText(n, style) + "}"
  }

  /** The field with the children of a node, or with its child. */
  function FieldText(n: Node, style: Node -> bool): string
    decreases Sizes(n.children), 3
  {
    if Inlines(n, style) then
      assert Sizes(n.children) == Size(n.children[0]) + Sizes(n.children[1..]);
      Quote("child") + ":" + NodeText(n.children[0], style)
    else Quote("children") + ":" + ListText(n.children, style)
  }

  function ListText(ns: seq<Node>, style: Node -> bool): string
    decreases Sizes(ns), 2
  {
    if ns == [] then "[]" else "[" + ItemsText(ns, style)
  }

  /** The items of a list that is not empty, and its closing bracket. */
  function ItemsText(ns: seq<Node>, style: Node -> bool): string
    requires ns != []
    decreases Sizes(ns), 1
  {
    assert Sizes(ns) == Size(ns[0]) + Sizes(ns[1..]);
    NodeText(ns[0], style) + (if |ns| == 1 then "]" else "," + ItemsText(ns[1..], style))
  }

  /** The compact document of a tree, in which the style chooses between `child` and `children`. */
  function Print(root: Node, style: Node -> bool): string {
    "{" + Quote("root") + ":" + NodeText(root, style) + "}"
  }

  // ---------------------------------------------------------------- strings

  /** The characters a string literal can stand for: all but the control characters without a
      short escape. */
  predicate Writable(c: char) {
    c >= ' ' || c == '\U{8}' || c == '\U{C}' || c == '\n' || c == '\r' || c == '\t'
  }

  predicate AllWritable(text: string) {
    forall c :: c in text ==> Writable(c)
  }

  lemma OneCharacter(c: char, rest: string, text: string)
    requires Writable(c)
    ensures StringBody(Escape(c) + rest, text) == StringBody(rest, text + [c])
  {
    var s := Escape(c) + rest;
    if |Escape(c)| == 1 {
      assert s[1..] == rest;
    } else {
      assert s[0] == '\\' && s[1] == Escape(c)[1] && s[2..] == rest;
    }
  }

  lemma {:induction false} StringRoundTrip(more: string, rest: string, text: string)
    requires AllWritable(more)
    ensures StringBody(EscapeAll(more) + "\"" + rest, text) == Ok(Parsed(text + more, rest))
  {
    hide StringBody, Writable;
    var s := EscapeAll(more) + "\"" + rest;
    if more == "" {
      assert s == "\"" + rest;
      StringEnds(rest, text);
      assert text + more == text;
    } else {
      var tail := EscapeAll(more[1..]) + "\"" + rest;
      assert s == Escape(more[0]) + tail;
      OneCharacter(more[0], tail, text);
      StringRoundTrip(more[1..], rest, text + [more[0]]);
      assert text + [more[0]] + more[1..] == text + more;
    }
  }

  lemma StringEnds(rest: string, text: string)
    ensures StringBody("\"" + rest, text) == Ok(Parsed(text, rest))
  {
    assert ("\"" + rest)[1..] == rest;
  }

  lemma SkipNothing(c: char, rest: string)
    requires !IsSpace(c)
    ensures Skip([c] + rest) == [c] + rest && ([c] + rest)[1..] == rest
    ensures Begins([c] + rest, c) && forall d :: d != c ==> !Begins([c] + rest, d)
  {
  }

  lemma TextRoundTrip(text: string, rest: string)
    requires AllWritable(text)
    ensures Value(Quote(text) + rest) == Ok(Parsed(Text(text), rest))
  {
    hide Skip, StringBody, Writable, IsDigit, NumberEnd, Literal, EscapeAll;
    var body := EscapeAll(text) + "\"" + rest;
    assert Quote(text) + rest == ['"'] + body;
    SkipNothing('"', body);
    StringRoundTrip(text, rest, "");
    assert "" + text == text;
  }

  lemma KeyRoundTrip(key: string, rest: string)
    requires AllWritable(key)
    ensures Key(Quote(key) + ":" + rest) == Ok(Parsed(key, rest))
  {
    hide Skip, StringBody, Writable, EscapeAll, IsSpace, Begins;
    var body := EscapeAll(key) + "\"" + ([':'] + rest);
    assert Quote(key) + ":" + rest == ['"'] + body;
    assert !IsSpace('"') && !IsSpace(':') by { Punctuation(); }
    SkipNothing('"', body);
    SkipNothing(':', rest);
    StringRoundTrip(key, [':'] + rest, "");
    assert "" + key == key;
  }

  lemma Punctuation()
    ensures !IsSpace('"') && !IsSpace(':') && !IsSpace(',') && !IsSpace('{') && !IsSpace('}') && !IsSpace('[')
    ensures !IsSpace(']')
  {
  }

  // ---------------------------------------------------------------- objects and arrays

  lemma LastMember(key: string, text: string, v: Json, rest: string, members: map<string, Json>)
    requires AllWritable(key) && key !in members
    requires Value(text + "}" + rest) == Ok(Parsed(v, "}" + rest))
    ensures Members(Quote(key) + ":" + text + "}" + rest, members) == Ok(Parsed(Object(members[key := v]), rest))
  {
    hide Skip, Value, Key, AllWritable, Quote, IsSpace, Begins;
    assert Quote(key) + ":" + text + "}" + rest == Quote(key) + ":" + (text + "}" + rest);
    KeyRoundTrip(key, text + "}" + rest);
    Punctuation();
    SkipNothing('}', rest);
  }

  lemma NextMember(key: string, text: string, v: Json, rest: string, members: map<string, Json>)
    requires AllWritable(key) && key !in members
    requires Value(text + "," + rest) == Ok(Parsed(v, "," + rest))
    ensures Members(Quote(key) + ":" + text + "," + rest, members) == Members(rest, members[key := v])
  {
    hide Skip, Value, Key, AllWritable, Quote, IsSpace, Begins;
    assert Quote(key) + ":" + text + "," + rest == Quote(key) + ":" + (text + "," + rest);
    KeyRoundTrip(key, text + "," + rest);
    Punctuation();
    SkipNothing(',', rest);
  }

  lemma OpenObject(key: string, rest: string)
    ensures Value("{" + Quote(key) + rest) == Members(Quote(key) + rest, map[])
  {
    hide Skip, Members, Elements, Scalar, EscapeAll, IsSpace;
    var body := EscapeAll(key) + "\"" + rest;
    assert Quote(key) + rest == ['"'] + body;
    Punctuation();
    SkipNothing('{', Quote(key) + rest);
    SkipNothing('"', body);
    assert "{" + Quote(key) + rest == ['{'] + (Quote(key) + rest);
  }

  // ---------------------------------------------------------------- trees

  ghost predicate Describable(n: Node) {
    AllWritable(n.kind) && n.kind != "" && forall c :: c in n.children ==> Describable(c)
  }

  ghost predicate AllDescribable(ns: seq<Node>) {
    forall n :: n in ns ==> Describable(n)
  }

  function JsonOf(n: Node, style: Node -> bool): Json
    decreases Size(n), 0
  {
    Object(map["type" := Text(n.kind)][FieldName(n, style) := FieldValue(n, style)])
  }

  function FieldName(n: Node, style: Node -> bool): string {
    if Inlines(n, style) then "child" else "children"
  }

  function FieldValue(n: Node, style: Node -> bool): Json
    decreases Sizes(n.children), 2
  {
    if Inlines(n, style) then
      assert Sizes(n.children) == Size(n.children[0]) + Sizes(n.children[1..]);
      JsonOf(n.children[0], style)
    else Array(JsonsOf(n.children, style))
  }

  function JsonsOf(ns: seq<Node>, style: Node -> bool): (items: seq<Json>)
    decreases Sizes(ns), 1
  {
    if ns == [] then [] else
      assert Sizes(ns) == Size(ns[0]) + Sizes(ns[1..]);
      [JsonOf(ns[0], style)] + JsonsOf(ns[1..], style)
  }

  lemma {:induction false} NodeOfJsonOf(n: Node, style: Node -> bool)
    requires Describable(n)
    ensures NodeFromJson(JsonOf(n, style)) == Ok(n)
    decreases Size(n), 0
  {
    hide AllWritable;
    if Inlines(n, style) {
      assert Sizes(n.children) == Size(n.children[0]) + Sizes(n.children[1..]);
      NodeOfJsonOf(n.children[0], style);
      assert n.children == [n.children[0]];
    } else {
      NodesOfJsonsOf(n.children, style);
    }
  }

  lemma {:induction false} NodesOfJsonsOf(ns: seq<Node>, style: Node -> bool)
    requires AllDescribable(ns)
    ensures NodesFromJson(JsonsOf(ns, style)) == Ok(ns)
    decreases Sizes(ns), 1
  {
    hide AllWritable, NodeFromJson, JsonOf;
    if ns != [] {
      assert Sizes(ns) == Size(ns[0]) + Sizes(ns[1..]);
      NodeOfJsonOf(ns[0], style);
      NodesOfJsonsOf(ns[1..], style);
      assert JsonsOf(ns, style)[1..] == JsonsOf(ns[1..], style);
      assert [ns[0]] + ns[1..] == ns;
    }
  }

  lemma FieldNames()
    ensures AllWritable("type") && AllWritable("child") && AllWritable("children") && AllWritable("root")
  {
  }

  lemma {:induction false} NodeTextParsed(n: Node, style: Node -> bool, rest: string)
    requires Describable(n)
    ensures Value(NodeText(n, style) + rest) == Ok(Parsed(JsonOf(n, style), rest))
    decreases Size(n), 0
  {
    hide Value, Members, AllWritable, Quote, FieldText, FieldName, FieldValue;
    FieldNames();
    var field := FieldText(n, style);
    var second := field + "}" + rest;
    var first := Quote("type") + ":" + Quote(n.kind) + "," + second;
    assert NodeText(n, style) + rest == "{" + Quote("type") + (":" + Quote(n.kind) + "," + second);
    OpenObject("type", ":" + Quote(n.kind) + "," + second);
    assert Quote("type") + (":" + Quote(n.kind) + "," + second) == first;
    TextRoundTrip(n.kind, "," + second);
    assert Quote(n.kind) + ("," + second) == Quote(n.kind) + "," + second;
    NextMember("type", Quote(n.kind), Text(n.kind), second, map[]);
    FieldTextParsed(n, style, rest, map["type" := Text(n.kind)]);
  }

  lemma {:induction false} FieldTextParsed(n: Node, style: Node -> bool, rest: string, members: map<string, Json>)
    requires Describable(n) && "child" !in members && "children" !in members
    ensures Members(FieldText(n, style) + "}" + rest, members) ==
      Ok(Parsed(Object(members[FieldName(n, style) := FieldValue(n, style)]), rest))
    decreases Sizes(n.children), 3
  {
    hide Value, Members, AllWritable, Quote, NodeText, ListText, JsonOf, JsonsOf;
    FieldNames();
    var text := if Inlines(n, style) then NodeText(n.children[0], style) else ListText(n.children, style);
    if Inlines(n, style) {
      assert Sizes(n.children) == Size(n.children[0]) + Sizes(n.children[1..]);
      NodeTextParsed(n.children[0], style, "}" + rest);
    } else {
      ListTextParsed(n.children, style, "}" + rest);
    }
    assert text + ("}" + rest) == text + "}" + rest;
    LastMember(FieldName(n, style), text, FieldValue(n, style), rest, members);
  }

  lemma {:induction false} ListTextParsed(ns: seq<Node>, style: Node -> bool, rest: string)
    requires AllDescribable(ns)
    ensures Value(ListText(ns, style) + rest) == Ok(Parsed(Array(JsonsOf(ns, style)), rest))
    decreases Sizes(ns), 2
  {
    hide Value, Elements, AllWritable, ItemsText, JsonsOf, Describable;
    if ns == [] {
      EmptyArray(rest);
      NoJsons(style);
    } else {
      ItemsTextParsed(ns, style, [], rest);
      assert [] + JsonsOf(ns, style) == JsonsOf(ns, style);
      ItemsTextOpens(ns, style);
      OpenArray(ItemsText(ns, style) + rest);
      assert ListText(ns, style) + rest == "[" + (ItemsText(ns, style) + rest);
    }
  }

  lemma NoJsons(style: Node -> bool)
    ensures JsonsOf([], style) == []
  {
  }

  lemma ItemsTextOpens(ns: seq<Node>, style: Node -> bool)
    requires ns != []
    ensures Begins(ItemsText(ns, style), '{')
  {
    hide Quote;
    assert NodeText(ns[0], style)[0] == '{';
  }

  lemma EmptyArray(rest: string)
    ensures Value("[]" + rest) == Ok(Parsed(Array([]), rest))
  {
    hide Skip, Members, Elements, Scalar, IsSpace;
    Punctuation();
    SkipNothing('[', "]" + rest);
    SkipNothing(']', rest);
    assert "[]" + rest == ['['] + ("]" + rest);
  }

  lemma OpenArray(s: string)
    requires Begins(s, '{')
    ensures Value("[" + s) == Elements(s, [])
  {
    hide Skip, Members, Elements, Scalar, IsSpace;
    Punctuation();
    SkipNothing('[', s);
    SkipNothing('{', s[1..]);
    assert s == ['{'] + s[1..];
  }

  lemma {:induction false} ItemsTextParsed(ns: seq<Node>, style: Node -> bool, items: seq<Json>, rest: string)
    requires ns != [] && AllDescribable(ns)
    ensures Elements(ItemsText(ns, style) + rest, items) == Ok(Parsed(Array(items + JsonsOf(ns, style)), rest))
    decreases Sizes(ns), 1
  {
    hide Value, Elements, AllWritable, NodeText, JsonOf;
    assert Sizes(ns) == Size(ns[0]) + Sizes(ns[1..]);
    var n := ns[0];
    if |ns| == 1 {
      NodeTextParsed(n, style, "]" + rest);
      LastElement(NodeText(n, style), JsonOf(n, style), rest, items);
      assert ItemsText(ns, style) + rest == NodeText(n, style) + "]" + rest;
      assert JsonsOf(ns, style) == [JsonOf(n, style)];
    } else {
      var tail := ItemsText(ns[1..], style) + rest;
      NodeTextParsed(n, style, "," + tail);
      NextElement(NodeText(n, style), JsonOf(n, style), tail, items);
      assert ItemsText(ns, style) + rest == NodeText(n, style) + "," + tail;
      ItemsTextParsed(ns[1..], style, items + [JsonOf(n, style)], rest);
      assert items + [JsonOf(n, style)] + JsonsOf(ns[1..], style) == items + JsonsOf(ns, style);
    }
  }

  lemma LastElement(text: string, v: Json, rest: string, items: seq<Json>)
    requires Value(text + ("]" + rest)) == Ok(Parsed(v, "]" + rest))
    ensures Elements(text + "]" + rest, items) == Ok(Parsed(Array(items + [v]), rest))
  {
    hide Skip, Value, IsSpace, Begins;
    assert text + "]" + rest == text + ("]" + rest);
    Punctuation();
    SkipNothing(']', rest);
  }

  lemma NextElement(text: string, v: Json, rest: string, items: seq<Json>)
    requires Value(text + ("," + rest)) == Ok(Parsed(v, "," + rest))
    ensures Elements(text + "," + rest, items) == Elements(rest, items + [v])
  {
    hide Skip, Value, IsSpace, Begins;
    assert text + "," + rest == text + ("," + rest);
    Punctuation();
    SkipNothing(',', rest);
  }

  /** Printing in any style and parsing gives every describable tree back. */
  lemma RoundTrip(root: Node, style: Node -> bool)
    requires Describable(root)
    ensures Parse(Print(root, style)) == Ok(root)
  {
    hide Value, Members, Describable, AllWritable, Quote, NodeText, JsonOf, NodeFromJson;
    FieldNames();
    var text := NodeText(root, style);
    NodeTextParsed(root, style, "}");
    assert text + "}" == text + "}" + "";
    assert "}" + "" == "}";
    LastMember("root", text, JsonOf(root, style), "", map[]);
    OpenObject("root", ":" + text + "}");
    assert Print(root, style) == "{" + Quote("root") + (":" + text + "}");
    assert Quote("root") + (":" + text + "}") == Quote("root") + ":" + text + "}" + "";
    NodeOfJsonOf(root, style);
  }

  // ---------------------------------------------------------------- what a document can describe

  /** Every string of a value can be written. */
  ghost predicate WritableValue(v: Json) {
    match v
    case Text(text) => AllWritable(text)
    case Object(members) => forall key :: key in members ==> WritableValue(members[key])
    case Array(items) => forall item :: item in items ==> WritableValue(item)
    case _ => true
  }

  ghost predicate WritableMembers(members: map<string, Json>) {
    forall key :: key in members ==> WritableValue(members[key])
  }

  ghost predicate WritableItems(items: seq<Json>) {
    forall item :: item in items ==> WritableValue(item)
  }

  lemma {:induction false} StringBodyWritable(s: string, text: string)
    requires AllWritable(text)
    ensures StringBody(s, text).Ok? ==> AllWritable(StringBody(s, text).value.value)
    decreases |s|
  {
    if s == "" || s[0] == '"' || s[0] < ' ' {
    } else if s[0] != '\\' {
      StringBodyWritable(s[1..], text + [s[0]]);
    } else if |s| > 1 && Unescape(s[1]).Ok? {
      StringBodyWritable(s[2..], text + [Unescape(s[1]).value]);
    }
  }

  lemma ScalarWritable(s: string)
    requires s != ""
    ensures Scalar(s).Ok? ==> WritableValue(Scalar(s).value.value)
  {
    hide StringBody, IsDigit, NumberEnd, StartsWith;
    StringBodyWritable(s[1..], "");
  }

  lemma {:induction false} ValueWritable(s: string)
    ensures Value(s).Ok? ==> WritableValue(Value(s).value.value)
    decreases |s|, 1
  {
    hide Skip, Members, Elements, Scalar;
    var t := Skip(s);
    if t == "" {
    } else if t[0] == '{' {
      MembersWritable(t[1..], map[]);
    } else if t[0] == '[' {
      ElementsWritable(t[1..], []);
    } else {
      ScalarWritable(t);
    }
  }

  lemma {:induction false} MembersWritable(s: string, members: map<string, Json>)
    requires WritableMembers(members)
    ensures Members(s, members).Ok? ==> WritableValue(Members(s, members).value.value)
    decreases |s|, 0
  {
    hide Skip, Key, Value, Begins;
    var key := Key(s);
    if key.Ok? {
      ValueWritable(key.value.rest);
      var value := Value(key.value.rest);
      if value.Ok? && key.value.value !in members {
        var more := members[key.value.value := value.value.value];
        if Begins(Skip(value.value.rest), ',') {
          BeginsNonempty(Skip(value.value.rest), ',');
          MembersWritable(Skip(value.value.rest)[1..], more);
        }
      }
    }
  }

  lemma BeginsNonempty(s: string, c: char)
    requires Begins(s, c)
    ensures s != ""
  {
  }

  lemma {:induction false} ElementsWritable(s: string, items: seq<Json>)
    requires WritableItems(items)
    ensures Elements(s, items).Ok? ==> WritableValue(Elements(s, items).value.value)
    decreases |s|, 2
  {
    hide Skip, Value, Begins;
    ValueWritable(s);
    var value := Value(s);
    if value.Ok? && Begins(Skip(value.value.rest), ',') {
      BeginsNonempty(Skip(value.value.rest), ',');
      ElementsWritable(Skip(value.value.rest)[1..], items + [value.value.value]);
    }
  }

  lemma {:induction false} NodeDescribable(v: Json)
    requires WritableValue(v)
    ensures NodeFromJson(v).Ok? ==> Describable(NodeFromJson(v).value)
    decreases v, 0
  {
    hide AllWritable, NodesFromJson;
    if v.Object? && "child" in v.members {
      NodeDescribable(v.members["child"]);
    }
    if v.Object? && "children" in v.members && v.members["children"].Array? {
      NodesDescribable(v.members["children"].items);
    }
  }

  lemma {:induction false} NodesDescribable(items: seq<Json>)
    requires WritableItems(items)
    ensures NodesFromJson(items).Ok? ==> AllDescribable(NodesFromJson(items).value)
    decreases items, 1
  {
    hide WritableValue, Describable, NodeFromJson;
    if items != [] {
      NodeDescribable(items[0]);
      NodesDescribable(items[1..]);
    }
  }

  /** Every tree that the parser returns is describable. */
  lemma ParsedIsDescribable(document: string)
    ensures Parse(document).Ok? ==> Describable(Parse(document).value)
  {
    hide Value, Skip, Describable, NodeFromJson;
    ValueWritable(document);
    if Value(document).Ok? {
      var v := Value(document).value.value;
      if v.Object? && "root" in v.members {
        NodeDescribable(v.members["root"]);
      }
    }
  }

  /** The round trip holds of exactly the trees some document describes. */
  lemma RoundTripExactly(root: Node, style: Node -> bool)
    ensures Parse(Print(root, style)) == Ok(root) <==> Describable(root)
    ensures Describable(root) <==> exists document :: Parse(document) == Ok(root)
  {
    hide Parse, Describable;
    if Describable(root) {
      RoundTrip(root, style);
    }
    forall document | Parse(document) == Ok(root)
      ensures Describable(root)
    {
      ParsedIsDescribable(document);
    }
  }
}
