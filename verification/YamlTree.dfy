/** The indentation-driven tree documents: line splitting, the mutually recursive parser and
    a canonical printer, with the round trip between them. */
module YamlTree {
  import opened TreeText

  datatype Line = Line(indent: nat, text: string)

  // ---------------------------------------------------------------- lines

  function LeadingSpaces(raw: string): (n: nat)
    ensures n <= |raw|
    ensures forall i :: 0 <= i < n ==> raw[i] == ' '
    ensures n < |raw| ==> raw[n] != ' '
  {
    if raw != "" && raw[0] == ' ' then 1 + LeadingSpaces(raw[1..]) else 0
  }

  /** The part of a text before the first occurrence of a character. */
  function Before(text: string, c: char): (part: string)
    ensures part <= text && c !in part
    ensures |part| < |text| ==> text[|part|] == c
  {
    if text == "" || text[0] == c then "" else [text[0]] + Before(text[1..], c)
  }

  function Content(raw: string): string {
    var trimmed := TrimSpec(raw);
    var kept := Before(trimmed, '#');
    if kept == trimmed then trimmed else TrimSpec(kept)
  }

  /** What one raw line contributes; a tab in the indentation is an error. */
  function LineOf(raw: string): Result<seq<Line>> {
    var indent := LeadingSpaces(raw);
    if indent < |raw| && raw[indent] == '\t' then Err
    else
      var content := Content(raw[indent..]);
      Ok(if content == "" then [] else [Line(indent, content)])
  }

  function Prepend(here: Result<seq<Line>>, rest: Result<seq<Line>>): Result<seq<Line>> {
    if here.Err? || rest.Err? then Err else Ok(here.value + rest.value)
  }

  /** The lines that carry content. */
  function Lines(document: string): Result<seq<Line>>
    decreases |document|
  {
    var raw := Before(document, '\n');
    if |raw| == |document| then LineOf(raw) else Prepend(LineOf(raw), Lines(document[|raw| + 1..]))
  }

  // ---------------------------------------------------------------- parser

  function FieldValue(text: string, field: string): Result<string>
    requires |field| <= |text|
  {
    var value := Unquote(TrimSpec(text[|field|..]));
    if value == "" then Err else Ok(value)
  }

  predicate IsItem(text: string) {
    StartsWith(text, "-")
  }

  predicate IsType(text: string) {
    StartsWith(text, "type:")
  }

  predicate IsChild(text: string) {
    text == "child:"
  }

  predicate IsChildren(text: string) {
    text == "children:"
  }

  function TypeValue(text: string): Result<string>
    requires IsType(text)
  {
    FieldValue(text, "type:")
  }

  function ItemText(text: string): string
    requires IsItem(text)
  {
    TrimSpec(text[1..])
  }

  /** A parsed piece and the lines after it. */
  datatype Parsed<+T> = Parsed(value: T, rest: seq<Line>)

  /** Fields of one node, up to the first line with less indentation. `any` tells whether a
      field has been read. */
  function Fields(lines: seq<Line>, indent: nat, node: Node, any: bool): (r: Result<Parsed<Node>>)
    ensures r.Ok? ==> |r.value.rest| <= |lines|
    decreases |lines|, 0
  {
    if lines == [] || lines[0].indent < indent then
      if any then Ok(Parsed(node, lines)) else Err
    else if lines[0].indent > indent || IsItem(lines[0].text) then Err
    else Field(lines[0].text, lines[1..], indent, node)
  }

  /** One field of a node, and the fields in the lines below it. */
  function Field(text: string, below: seq<Line>, indent: nat, node: Node): (r: Result<Parsed<Node>>)
    ensures r.Ok? ==> |r.value.rest| <= |below|
    decreases |below|, 1
  {
    if IsType(text) then
      if node.kind != "" then Err
      else
        match TypeValue(text)
        case Ok(kind) => Fields(below, indent, node.(kind := kind), true)
        case Err => Err
    else if IsChild(text) then
      match Fields(below, indent + 2, Node("", []), false)
      case Ok(child) => Fields(child.rest, indent, node.(children := node.children + [child.value]), true)
      case Err => Err
    else if IsChildren(text) then
      match Items(below, indent + 2, node.children, false)
      case Ok(items) => Fields(items.rest, indent, node.(children := items.value), true)
      case Err => Err
    else Err
  }

  /** Items of a children list, up to a line that is not an item of this indentation. */
  function Items(lines: seq<Line>, indent: nat, children: seq<Node>, any: bool): (r: Result<Parsed<seq<Node>>>)
    ensures r.Ok? ==> |r.value.rest| <= |lines|
    decreases |lines|, 0
  {
    if lines == [] || lines[0].indent < indent then
      if any then Ok(Parsed(children, lines)) else Err
    else if lines[0].indent > indent then Err
    else if !IsItem(lines[0].text) then
      if any then Ok(Parsed(children, lines)) else Err
    else
      var item := ItemText(lines[0].text);
      var rest := lines[1..];
      match ItemKind(item)
      case Err => Err
      case Ok(kind) =>
        if item == "" || (rest != [] && rest[0].indent > indent) then
          match Fields(rest, indent + 2, Node(kind, []), false)
          case Ok(child) => Items(child.rest, indent, children + [child.value], true)
          case Err => Err
        else Items(rest, indent, children + [Node(kind, [])], true)
  }

  function ItemKind(item: string): Result<string> {
    if item == "" then Ok("")
    else if !IsType(item) then Err
    else TypeValue(item)
  }

  function Document(lines: seq<Line>): Result<Node> {
    if lines == [] || lines[0] != Line(0, "root:") then Err
    else
      match Fields(lines[1..], 2, Node("", []), false)
      case Ok(root) => if root.rest == [] then Ok(root.value) else Err
      case Err => Err
  }

  function Parse(document: string): Result<Node> {
    match Lines(document)
    case Ok(lines) => Document(lines)
    case Err => Err
  }

  // ---------------------------------------------------------------- the parser's loops

  method ParseNodeFields(lines: seq<Line>, start: nat, indent: nat, initial: Node) returns (r: Result<Node>, index: nat)
    requires start <= |lines|
    ensures start <= index <= |lines|
    ensures (if r.Ok? then Ok(Parsed(r.value, lines[index..])) else Err) ==
      Fields(lines[start..], indent, initial, false)
    decreases |lines| - start
  {
    hide IsItem, IsType, IsChild, IsChildren, TypeValue, Items, Fields;
    var node, parsedAny := initial, false;
    index := start;
    while index < |lines|
      invariant start <= index <= |lines|
      invariant parsedAny ==> start < index
      invariant Fields(lines[start..], indent, initial, false) == Fields(lines[index..], indent, node, parsedAny)
    {
      var line := lines[index];
      FieldsAt(lines, index, indent, node, parsedAny);
      if line.indent < indent {
        break;
      }
      if line.indent > indent {
        return Err, index;
      }
      parsedAny := true;
      if IsItem(line.text) {
        return Err, index;
      }
      if IsType(line.text) {
        if node.kind != "" {
          return Err, index;
        }
        var value := TypeValue(line.text);
        if value.Err? {
          return Err, index;
        }
        node := node.(kind := value.value);
        index := index + 1;
        continue;
      }
      if IsChild(line.text) {
        var child, next := ParseNodeFields(lines, index + 1, indent + 2, Node("", []));
        if child.Err? {
          return Err, next;
        }
        node := node.(children := node.children + [child.value]);
        index := next;
        continue;
      }
      if IsChildren(line.text) {
        var children, next := ParseNodeList(lines, index + 1, indent + 2, node.children);
        if children.Err? {
          return Err, next;
        }
        node := node.(children := children.value);
        index := next;
        continue;
      }
      return Err, index;
    }
    FieldsEnd(lines, index, indent, node, parsedAny);
    r := if parsedAny then Ok(node) else Err;
  }

  /** The fields from one line on: what that line is, and what follows it. */
  lemma FieldsAt(lines: seq<Line>, index: nat, indent: nat, node: Node, any: bool)
    requires index < |lines|
    ensures var line, below, all := lines[index], lines[index + 1..], Fields(lines[index..], indent, node, any);
      && (line.indent > indent ==> all == Err)
      && (line.indent == indent && IsItem(line.text) ==> all == Err)
      && (line.indent == indent && !IsItem(line.text) ==> all == Field(line.text, below, indent, node))
  {
    hide IsItem, Field;
    assert lines[index..][0] == lines[index] && lines[index..][1..] == lines[index + 1..];
  }

  lemma FieldsEnd(lines: seq<Line>, index: nat, indent: nat, node: Node, any: bool)
    requires index <= |lines| && (index < |lines| ==> lines[index].indent < indent)
    ensures Fields(lines[index..], indent, node, any) == if any then Ok(Parsed(node, lines[index..])) else Err
  {
  }

  method TrimItem(text: string) returns (item: string)
    requires IsItem(text)
    ensures item == ItemText(text)
  {
    item := Trim(text[1..]);
  }

  method ParseNodeList(
      lines: seq<Line>, start: nat, indent: nat, initial: seq<Node>) returns (r: Result<seq<Node>>, index: nat)
    requires start <= |lines|
    ensures start <= index <= |lines|
    ensures (if r.Ok? then Ok(Parsed(r.value, lines[index..])) else Err) ==
      Items(lines[start..], indent, initial, false)
    decreases |lines| - start
  {
    hide IsItem, IsType, TypeValue, ItemText, Fields;
    var children, parsedAny := initial, false;
    index := start;
    while index < |lines|
      invariant start <= index <= |lines|
      invariant parsedAny ==> start < index
      invariant Items(lines[start..], indent, initial, false) == Items(lines[index..], indent, children, parsedAny)
    {
      var line := lines[index];
      assert lines[index..][1..] == lines[index + 1..];
      if line.indent < indent {
        break;
      }
      if line.indent > indent {
        return Err, index;
      }
      if !IsItem(line.text) {
        break;
      }
      parsedAny := true;
      var item := TrimItem(line.text);
      index := index + 1;
      var child := Node("", []);
      if item != "" {
        if !IsType(item) {
          return Err, index;
        }
        var value := TypeValue(item);
        if value.Err? {
          return Err, index;
        }
        child := child.(kind := value.value);
      }
      if item == "" || (index < |lines| && lines[index].indent > indent) {
        var parsed, next := ParseNodeFields(lines, index, indent + 2, child);
        if parsed.Err? {
          return Err, next;
        }
        child := parsed.value;
        index := next;
      }
      children := children + [child];
    }
    r := if parsedAny then Ok(children) else Err;
  }

  // ---------------------------------------------------------------- splitting into lines

  lemma {:induction false} BeforeAt(text: string, c: char, k: nat)
    requires k <= |text| && c !in text[..k]
    requires k < |text| ==> text[k] == c
    ensures Before(text, c) == text[..k]
  {
    if k > 0 {
      assert text[..k][0] == text[0];
      assert text[1..][..k - 1] == text[..k][1..];
      BeforeAt(text[1..], c, k - 1);
      assert [text[0]] + text[1..][..k - 1] == text[..k];
    }
  }

  /** The position of a character at or after an offset, or the end of the text. */
  method Find(text: string, c: char, offset: nat) returns (end: nat)
    requires offset <= |text|
    ensures offset <= end <= |text| && text[offset..end] == Before(text[offset..], c)
    ensures c in text[offset..] ==> end < |text|
  {
    hide Before;
    end := offset;
    while end < |text| && text[end] != c
      invariant offset <= end <= |text| && c !in text[offset..end]
    {
      end := end + 1;
    }
    assert text[offset..][..end - offset] == text[offset..end];
    BeforeAt(text[offset..], c, end - offset);
  }

  method CountSpaces(raw: string) returns (indent: nat)
    ensures indent == LeadingSpaces(raw)
  {
    indent := 0;
    while indent < |raw| && raw[indent] == ' '
      invariant indent <= |raw| && LeadingSpaces(raw) == indent + LeadingSpaces(raw[indent..])
    {
      indent := indent + 1;
    }
  }

  method ContentOf(raw: string) returns (content: string)
    ensures content == Content(raw)
  {
    hide Before, TrimSpec, Tight;
    content := Trim(raw);
    assert content[0..] == content;
    var comment := Find(content, '#', 0);
    if comment != |content| {
      content := Trim(content[..comment]);
    }
  }

  method ReadLine(raw: string) returns (r: Result<seq<Line>>)
    ensures r == LineOf(raw)
  {
    hide Content;
    var indent := CountSpaces(raw);
    if indent < |raw| && raw[indent] == '\t' {
      return Err;
    }
    var content := ContentOf(raw[indent..]);
    r := Ok(if content == "" then [] else [Line(indent, content)]);
  }

  method LinesFromYaml(document: string) returns (r: Result<seq<Line>>)
    ensures r == Lines(document)
  {
    hide LineOf, Before;
    var lines: seq<Line> := [];
    var offset := 0;
    assert document[0..] == document;
    PrependNothing(Lines(document));
    while true
      invariant offset <= |document|
      invariant Lines(document) == Prepend(Ok(lines), Lines(document[offset..]))
      decreases |document| - offset
    {
      var end := Find(document, '\n', offset);
      var here := ReadLine(document[offset..end]);
      if here.Err? {
        return Err;
      }
      if end == |document| {
        return Ok(lines + here.value);
      }
      assert document[offset..][end - offset + 1..] == document[end + 1..];
      PrependTwice(lines, here.value, Lines(document[end + 1..]));
      lines, offset := lines + here.value, end + 1;
    }
  }

  lemma PrependNothing(r: Result<seq<Line>>)
    ensures Prepend(Ok([]), r) == r
  {
    if r.Ok? {
      assert [] + r.value == r.value;
    }
  }

  lemma PrependTwice(a: seq<Line>, b: seq<Line>, r: Result<seq<Line>>)
    ensures Prepend(Ok(a + b), r) == Prepend(Ok(a), Prepend(Ok(b), r))
  {
    if r.Ok? {
      assert (a + b) + r.value == a + (b + r.value);
    }
  }

  /** The whole parser, as its entry point runs it. */
  method ParseYaml(document: string) returns (r: Result<Node>)
    ensures r == Parse(document)
  {
    hide Lines, Fields;
    var lines := LinesFromYaml(document);
    if lines.Err? || lines.value == [] || lines.value[0] != Line(0, "root:") {
      return Err;
    }
    var root, index := ParseNodeFields(lines.value, 1, 2, Node("", []));
    if root.Ok? && index == |lines.value| {
      return root;
    }
    return Err;
  }

  // ---------------------------------------------------------------- printer

  function TypeText(kind: string): string {
    "type: \"" + kind + "\""
  }

  function TypeLines(kind: string, indent: nat): seq<Line> {
    if kind == "" then [] else [Line(indent, TypeText(kind))]
  }

  function ChildLines(ns: seq<Node>, indent: nat): (lines: seq<Line>)
    ensures lines != [] ==> lines[0].indent == indent
    decreases Sizes(ns), 1
  {
    if ns == [] then [] else [Line(indent, "children:")] + ItemLines(ns, indent + 2)
  }

  function ItemLine(kind: string): string {
    if kind == "" then "-" else "- " + TypeText(kind)
  }

  function ItemLines(ns: seq<Node>, indent: nat): (lines: seq<Line>)
    ensures lines != [] ==> lines[0].indent == indent
    decreases Sizes(ns), 0
  {
    if ns == [] then []
    else
      assert Sizes(ns) == Size(ns[0]) + Sizes(ns[1..]) && Size(ns[0]) == 1 + Sizes(ns[0].children);
      [Line(indent, ItemLine(ns[0].kind))] + ChildLines(ns[0].children, indent + 2) + ItemLines(ns[1..], indent)
  }

  function DocumentLines(root: Node): seq<Line> {
    [Line(0, "root:")] + TypeLines(root.kind, 2) + ChildLines(root.children, 2)
  }

  function Spaces(n: nat): (text: string)
    ensures |text| == n && forall i :: 0 <= i < n ==> text[i] == ' '
  {
    if n == 0 then "" else " " + Spaces(n - 1)
  }

  function LinesText(lines: seq<Line>): string {
    if lines == [] then "" else Spaces(lines[0].indent) + lines[0].text + "\n" + LinesText(lines[1..])
  }

  /** The canonical document of a tree. */
  function Print(root: Node): string {
    LinesText(DocumentLines(root))
  }

  // ---------------------------------------------------------------- lines round trip

  /** A text that splitting, trimming and comment removal leave alone. */
  predicate Plain(text: string) {
    Tight(text) && '#' !in text && '\n' !in text
  }

  ghost predicate AllPlain(lines: seq<Line>) {
    forall i :: 0 <= i < |lines| ==> Plain(lines[i].text)
  }

  lemma BeforeNewline(text: string, more: string)
    requires '\n' !in text
    ensures Before(text + "\n" + more, '\n') == text
  {
    hide Before;
    var all := text + "\n" + more;
    assert all[..|text|] == text;
    BeforeAt(all, '\n', |text|);
  }

  lemma {:induction false} SpacesCounted(n: nat, text: string)
    requires text != "" && text[0] != ' '
    ensures LeadingSpaces(Spaces(n) + text) == n && (Spaces(n) + text)[n..] == text
  {
    if n > 0 {
      assert (Spaces(n) + text)[1..] == Spaces(n - 1) + text;
      SpacesCounted(n - 1, text);
    }
  }

  lemma PlainContent(text: string)
    requires Plain(text)
    ensures Content(text) == text
  {
    hide Before, TrimSpec;
    TightIsTrimmed(text);
    assert text[..|text|] == text;
    BeforeAt(text, '#', |text|);
  }

  /** A document that starts with one printed line. */
  lemma FirstLine(line: Line, more: string)
    requires Plain(line.text)
    ensures Lines(Spaces(line.indent) + line.text + "\n" + more) == Prepend(Ok([line]), Lines(more))
  {
    hide Before, LineOf, Content;
    var raw := Spaces(line.indent) + line.text;
    var document := raw + "\n" + more;
    BeforeNewline(raw, more);
    PlainLine(line);
    assert document[|raw| + 1..] == more;
  }

  lemma PlainLine(line: Line)
    requires Plain(line.text)
    ensures LineOf(Spaces(line.indent) + line.text) == Ok([line])
  {
    hide LeadingSpaces, Content;
    SpacesCounted(line.indent, line.text);
    PlainContent(line.text);
  }

  lemma {:induction false} LinesRoundTrip(lines: seq<Line>)
    requires AllPlain(lines)
    ensures Lines(LinesText(lines)) == Ok(lines)
  {
    hide Lines, Plain;
    if lines == [] {
      NoLines();
    } else {
      FirstLine(lines[0], LinesText(lines[1..]));
      LinesRoundTrip(lines[1..]);
      assert [lines[0]] + lines[1..] == lines;
    }
  }

  lemma NoLines()
    ensures Lines("") == Ok([])
  {
    hide TrimSpec;
    assert TrimSpec("") == "" by { TrimNothing(); }
  }

  lemma TrimNothing()
    ensures TrimSpec("") == ""
  {
  }

  // ---------------------------------------------------------------- trees round trip

  ghost predicate CleanName(kind: string) {
    '#' !in kind && '\n' !in kind
  }

  /** The trees that a document can describe: clean names, and a node without a name has children. */
  ghost predicate Describable(n: Node) {
    CleanName(n.kind) && (n.kind != "" || n.children != []) && forall c :: c in n.children ==> Describable(c)
  }

  ghost predicate AllDescribable(ns: seq<Node>) {
    forall n :: n in ns ==> Describable(n)
  }

  lemma ScalarRoundTrip(field: string, kind: string)
    requires kind != ""
    ensures FieldValue(field + " \"" + kind + "\"", field) == Ok(kind)
  {
    hide TrimSpec;
    var quoted := "\"" + kind + "\"";
    assert (field + " \"" + kind + "\"")[|field|..] == " " + quoted;
    SpaceTrimmed(quoted);
    assert quoted[1..|quoted| - 1] == kind;
  }

  lemma SpaceTrimmed(text: string)
    requires Tight(text)
    ensures TrimSpec(" " + text) == text
  {
    TightIsTrimmed(text);
    assert (" " + text)[1..] == text;
  }

  lemma TypeTextParsed(kind: string)
    requires kind != ""
    ensures IsType(TypeText(kind)) && !IsItem(TypeText(kind)) && TypeValue(TypeText(kind)) == Ok(kind)
  {
    hide FieldValue;
    var text := TypeText(kind);
    assert text[..5] == "type:";
    assert text[0] == 't';
    assert text == "type:" + " \"" + kind + "\"";
    ScalarRoundTrip("type:", kind);
  }

  lemma ItemLineParsed(kind: string)
    ensures IsItem(ItemLine(kind))
    ensures ItemText(ItemLine(kind)) == "" <==> kind == ""
    ensures ItemKind(ItemText(ItemLine(kind))) == Ok(kind)
  {
    hide TrimSpec, TypeValue, IsType;
    if kind == "" {
      TrimNothing();
    } else {
      var text := TypeText(kind);
      assert ItemLine(kind)[1..] == " " + text;
      SpaceTrimmed(text);
      TypeTextParsed(kind);
    }
  }

  predicate Shallow(rest: seq<Line>, indent: nat) {
    rest == [] || rest[0].indent <= indent
  }

  lemma {:induction false} ItemsRoundTrip(ns: seq<Node>, indent: nat, before: seq<Node>, any: bool, rest: seq<Line>)
    requires AllDescribable(ns) && Shallow(rest, indent)
    ensures Items(ItemLines(ns, indent) + rest, indent, before, any) ==
      Items(rest, indent, before + ns, any || ns != [])
    decreases Sizes(ns), 1
  {
    hide Items, Fields, AllDescribable, Shallow, ItemLine, ItemLines, ChildLines, Size, Sizes;
    ItemLinesSplit(ns, indent, rest);
    if ns == [] {
      assert before + ns == before;
    } else {
      var more := ItemLines(ns[1..], indent) + rest;
      SizesOfHead(ns);
      DescribableParts(ns);
      ShallowItems(ns[1..], indent, rest);
      OneItem(ns[0], indent, before, any, more);
      ItemsRoundTrip(ns[1..], indent, before + [ns[0]], true, rest);
      HeadMoved(before, ns);
    }
  }

  lemma DescribableParts(ns: seq<Node>)
    requires AllDescribable(ns) && ns != []
    ensures Describable(ns[0]) && AllDescribable(ns[1..])
  {
    hide Describable;
  }

  lemma ShallowItems(ns: seq<Node>, indent: nat, rest: seq<Line>)
    requires Shallow(rest, indent)
    ensures Shallow(ItemLines(ns, indent) + rest, indent)
  {
    hide ItemLines;
    if ItemLines(ns, indent) == [] {
      assert [] + rest == rest;
    }
  }

  lemma HeadMoved(before: seq<Node>, ns: seq<Node>)
    requires ns != []
    ensures before + [ns[0]] + ns[1..] == before + ns
  {
  }

  lemma SizesOfHead(ns: seq<Node>)
    requires ns != []
    ensures Sizes(ns) == Size(ns[0]) + Sizes(ns[1..]) && Size(ns[0]) == 1 + Sizes(ns[0].children)
  {
  }

  lemma ItemLinesSplit(ns: seq<Node>, indent: nat, rest: seq<Line>)
    ensures ItemLines(ns, indent) + rest ==
      if ns == [] then rest
      else
        [Line(indent, ItemLine(ns[0].kind))] + ChildLines(ns[0].children, indent + 2)
          + (ItemLines(ns[1..], indent) + rest)
  {
    hide ItemLine, ChildLines;
  }

  lemma {:induction false} OneItem(n: Node, indent: nat, before: seq<Node>, any: bool, rest: seq<Line>)
    requires Describable(n) && Shallow(rest, indent)
    ensures Items([Line(indent, ItemLine(n.kind))] + ChildLines(n.children, indent + 2) + rest, indent, before, any)
         == Items(rest, indent, before + [n], true)
    decreases Size(n), 0
  {
    hide Items, Fields, CleanName, IsItem, ItemText, ItemKind, TypeText, ItemLine, ChildLines;
    var below := ChildLines(n.children, indent + 2) + rest;
    ItemLineParsed(n.kind);
    ChildLinesShape(n.children, indent + 2);
    FirstItem(Line(indent, ItemLine(n.kind)), n.kind, below, before, any);
    assert [Line(indent, ItemLine(n.kind))] + ChildLines(n.children, indent + 2) + rest ==
      [Line(indent, ItemLine(n.kind))] + below;
    if n.children == [] {
      assert below == rest;
    } else {
      ChildrenRoundTrip(n.children, indent + 2, n.kind, false, rest);
    }
  }

  /** One step of the item loop. */
  lemma FirstItem(line: Line, kind: string, below: seq<Line>, before: seq<Node>, any: bool)
    requires IsItem(line.text) && ItemKind(ItemText(line.text)) == Ok(kind)
    ensures Items([line] + below, line.indent, before, any) ==
      if ItemText(line.text) == "" || !Shallow(below, line.indent) then
        var child := Fields(below, line.indent + 2, Node(kind, []), false);
        if child.Ok? then Items(child.value.rest, line.indent, before + [child.value.value], true) else Err
      else Items(below, line.indent, before + [Node(kind, [])], true)
  {
    hide Fields, IsItem, ItemText, ItemKind;
    var lines := [line] + below;
    assert lines[0] == line && lines[1..] == below;
  }

  lemma ChildLinesShape(ns: seq<Node>, indent: nat)
    ensures ns == [] <==> ChildLines(ns, indent) == []
    ensures ns != [] ==> ChildLines(ns, indent)[0].indent == indent
  {
  }

  lemma {:induction false} ChildrenRoundTrip(ns: seq<Node>, indent: nat, kind: string, any: bool, rest: seq<Line>)
    requires ns != [] && AllDescribable(ns)
    requires rest == [] || rest[0].indent < indent
    ensures Fields(ChildLines(ns, indent) + rest, indent, Node(kind, []), any) == Ok(Parsed(Node(kind, ns), rest))
    decreases Sizes(ns), 2
  {
    hide ItemLines, CleanName, Items, Fields;
    ItemsRoundTrip(ns, indent + 2, [], false, rest);
    assert [] + ns == ns;
    assert Items(rest, indent + 2, ns, true) == Ok(Parsed(ns, rest)) by { BlockEnds(rest, indent + 2, Node(kind, ns)); }
    FirstChildren(indent, ItemLines(ns, indent + 2) + rest, Node(kind, []), any);
    BlockEnds(rest, indent, Node(kind, ns));
    assert ChildLines(ns, indent) + rest == [Line(indent, "children:")] + (ItemLines(ns, indent + 2) + rest);
  }

  lemma BlockEnds(rest: seq<Line>, indent: nat, node: Node)
    requires rest == [] || rest[0].indent < indent
    ensures Items(rest, indent, node.children, true) == Ok(Parsed(node.children, rest))
    ensures Fields(rest, indent, node, true) == Ok(Parsed(node, rest))
  {
  }

  lemma FirstChildren(indent: nat, below: seq<Line>, node: Node, any: bool)
    ensures Fields([Line(indent, "children:")] + below, indent, node, any) ==
      var items := Items(below, indent + 2, node.children, false);
      if items.Ok? then Fields(items.value.rest, indent, node.(children := items.value.value), true) else Err
  {
    hide Items, IsItem, IsType, IsChild, IsChildren;
    ChildrenField();
    var lines := [Line(indent, "children:")] + below;
    assert lines[0] == Line(indent, "children:") && lines[1..] == below;
  }

  lemma ChildrenField()
    ensures !IsItem("children:") && !IsType("children:") && !IsChild("children:") && IsChildren("children:")
  {
    assert "children:"[..1] == "c";
    assert "children:"[..5] == "child";
    assert |"child:"| == 6;
  }

  lemma TypeLineParsed(kind: string, indent: nat, rest: seq<Line>)
    requires kind != ""
    ensures Fields(TypeLines(kind, indent) + rest, indent, Node("", []), false) ==
      Fields(rest, indent, Node(kind, []), true)
  {
    hide TypeText, IsType, IsItem, TypeValue, Items;
    TypeTextParsed(kind);
    var lines := TypeLines(kind, indent) + rest;
    assert lines[0] == Line(indent, TypeText(kind)) && lines[1..] == rest;
  }

  lemma DocumentRoundTrip(root: Node)
    requires Describable(root)
    ensures Document(DocumentLines(root)) == Ok(root)
  {
    hide TypeLines, ChildLines, CleanName;
    var fields := TypeLines(root.kind, 2) + ChildLines(root.children, 2);
    var lines := DocumentLines(root);
    assert lines[0] == Line(0, "root:") && lines[1..] == fields;
    RootFields(root, 2);
    assert Fields(fields, 2, Node("", []), false) == Ok(Parsed(root, []));
  }

  lemma RootFields(root: Node, indent: nat)
    requires Describable(root)
    ensures var lines := TypeLines(root.kind, indent) + ChildLines(root.children, indent);
      Fields(lines, indent, Node("", []), false) == Ok(Parsed(root, []))
  {
    hide ItemLines, CleanName, TypeText, Items;
    var kind, children := root.kind, root.children;
    if kind != "" {
      TypeLineParsed(kind, indent, ChildLines(children, indent));
    } else {
      assert TypeLines(kind, indent) + ChildLines(children, indent) == ChildLines(children, indent);
    }
    if children != [] {
      ChildrenRoundTrip(children, indent, kind, kind != "", []);
      assert ChildLines(children, indent) + [] == ChildLines(children, indent);
    }
  }

  lemma NamePlain(kind: string)
    requires CleanName(kind)
    ensures Plain(TypeText(kind)) && Plain(ItemLine(kind))
  {
  }

  lemma {:induction false} ItemLinesPlain(ns: seq<Node>, indent: nat)
    requires AllDescribable(ns)
    ensures AllPlain(ItemLines(ns, indent))
    decreases Sizes(ns), 0
  {
    hide Plain, CleanName, ItemLine;
    if ns != [] {
      assert Sizes(ns) == Size(ns[0]) + Sizes(ns[1..]);
      assert Describable(ns[0]);
      NamePlain(ns[0].kind);
      ChildLinesPlain(ns[0].children, indent + 2);
      ItemLinesPlain(ns[1..], indent);
    }
  }

  lemma {:induction false} ChildLinesPlain(ns: seq<Node>, indent: nat)
    requires AllDescribable(ns)
    ensures AllPlain(ChildLines(ns, indent))
    decreases Sizes(ns), 1
  {
    hide Plain, CleanName, ItemLine;
    assert Plain("children:") by { KeywordsPlain(); }
    if ns != [] {
      ItemLinesPlain(ns, indent + 2);
    }
  }

  lemma KeywordsPlain()
    ensures Plain("children:") && Plain("root:")
  {
  }

  /** Printing and parsing gives every describable tree back. */
  lemma RoundTrip(root: Node)
    requires Describable(root)
    ensures Parse(Print(root)) == Ok(root)
  {
    hide Lines, LinesText, Document, Plain, CleanName, TypeText, ChildLines;
    DocumentRoundTrip(root);
    ChildLinesPlain(root.children, 2);
    NamePlain(root.kind);
    KeywordsPlain();
    LinesRoundTrip(DocumentLines(root));
  }

  // ---------------------------------------------------------------- what a document can describe

  ghost predicate AllClean(lines: seq<Line>) {
    forall line :: line in lines ==> CleanName(line.text)
  }

  lemma TrimClean(text: string)
    requires CleanName(text)
    ensures CleanName(TrimSpec(text)) && CleanName(Unquote(text))
  {
    hide TrimSpec, Unquote;
    TrimKeeps(text, '#');
    TrimKeeps(text, '\n');
  }

  lemma ValueClean(text: string)
    requires CleanName(text)
    ensures IsType(text) && TypeValue(text).Ok? ==> CleanName(TypeValue(text).value) && TypeValue(text).value != ""
    ensures IsItem(text) ==> CleanName(ItemText(text))
  {
    hide TrimSpec, Unquote;
    if IsType(text) {
      TrimClean(text[5..]);
      TrimClean(TrimSpec(text[5..]));
    }
    if IsItem(text) {
      TrimClean(text[1..]);
    }
  }

  /** A node as the field loop builds it. */
  ghost predicate Partial(node: Node, any: bool) {
    CleanName(node.kind) && AllDescribable(node.children) && (any ==> node.kind != "" || node.children != [])
  }

  lemma {:induction false} FieldsDescribable(lines: seq<Line>, indent: nat, node: Node, any: bool)
    requires AllClean(lines) && Partial(node, any)
    ensures var r := Fields(lines, indent, node, any); r.Ok? ==> Describable(r.value.value) && AllClean(r.value.rest)
    decreases |lines|
  {
    hide CleanName, IsItem, IsType, IsChild, IsChildren, TypeValue, Items;
    if lines == [] || lines[0].indent != indent || IsItem(lines[0].text) {
    } else if IsType(lines[0].text) {
      ValueClean(lines[0].text);
      if node.kind == "" && TypeValue(lines[0].text).Ok? {
        FieldsDescribable(lines[1..], indent, node.(kind := TypeValue(lines[0].text).value), true);
      }
    } else if IsChild(lines[0].text) {
      assert CleanName("") by { EmptyClean(); }
      FieldsDescribable(lines[1..], indent + 2, Node("", []), false);
      var child := Fields(lines[1..], indent + 2, Node("", []), false);
      if child.Ok? {
        FieldsDescribable(child.value.rest, indent, node.(children := node.children + [child.value.value]), true);
      }
    } else if IsChildren(lines[0].text) {
      ItemsDescribable(lines[1..], indent + 2, node.children, false);
      var items := Items(lines[1..], indent + 2, node.children, false);
      if items.Ok? {
        FieldsDescribable(items.value.rest, indent, node.(children := items.value.value), true);
      }
    }
  }

  lemma EmptyClean()
    ensures CleanName("")
  {
  }

  lemma {:induction false} ItemsDescribable(lines: seq<Line>, indent: nat, children: seq<Node>, any: bool)
    requires AllClean(lines) && AllDescribable(children) && (any ==> children != [])
    ensures var r := Items(lines, indent, children, any);
      r.Ok? ==> AllDescribable(r.value.value) && r.value.value != [] && AllClean(r.value.rest)
    decreases |lines|
  {
    hide CleanName, IsItem, ItemText, ItemKind, Fields;
    if lines != [] && lines[0].indent == indent && IsItem(lines[0].text) {
      var item, rest := ItemText(lines[0].text), lines[1..];
      KindClean(lines[0].text);
      var kind := ItemKind(item);
      if kind.Ok? {
        if item == "" || (rest != [] && rest[0].indent > indent) {
          FieldsDescribable(rest, indent + 2, Node(kind.value, []), false);
          var child := Fields(rest, indent + 2, Node(kind.value, []), false);
          if child.Ok? {
            ItemsDescribable(child.value.rest, indent, children + [child.value.value], true);
          }
        } else {
          assert Describable(Node(kind.value, []));
          ItemsDescribable(rest, indent, children + [Node(kind.value, [])], true);
        }
      }
    }
  }

  lemma KindClean(text: string)
    requires CleanName(text) && IsItem(text)
    ensures var item := ItemText(text);
      var kind := ItemKind(item);
      kind.Ok? ==> CleanName(kind.value) && (item != "" ==> kind.value != "")
  {
    hide IsItem, IsType, ItemText, TypeValue, CleanName;
    EmptyClean();
    ValueClean(text);
    ValueClean(ItemText(text));
  }

  lemma ContentClean(raw: string)
    requires '\n' !in raw
    ensures CleanName(Content(raw))
  {
    hide TrimSpec;
    var trimmed := TrimSpec(raw);
    TrimKeeps(raw, '\n');
    TrimClean(Before(trimmed, '#'));
  }

  lemma LineClean(raw: string)
    requires '\n' !in raw
    ensures LineOf(raw).Ok? ==> AllClean(LineOf(raw).value)
  {
    hide CleanName, Content, LeadingSpaces;
    ContentClean(raw[LeadingSpaces(raw)..]);
  }

  lemma {:induction false} LinesClean(document: string)
    ensures Lines(document).Ok? ==> AllClean(Lines(document).value)
    decreases |document|
  {
    hide CleanName, LineOf, Before;
    var raw := Before(document, '\n');
    LineClean(raw);
    if |raw| < |document| {
      LinesClean(document[|raw| + 1..]);
    }
  }

  /** Every tree that the parser returns is describable. */
  lemma ParsedIsDescribable(document: string)
    ensures Parse(document).Ok? ==> Describable(Parse(document).value)
  {
    hide Lines, Fields, CleanName;
    LinesClean(document);
    EmptyClean();
    if Lines(document).Ok? && Lines(document).value != [] {
      FieldsDescribable(Lines(document).value[1..], 2, Node("", []), false);
    }
  }

  /** The round trip holds of exactly the trees some document describes. */
  lemma RoundTripExactly(root: Node)
    ensures Parse(Print(root)) == Ok(root) <==> Describable(root)
    ensures Describable(root) <==> exists document :: Parse(document) == Ok(root)
  {
    hide Parse, Describable;
    if Describable(root) {
      RoundTrip(root);
    }
    forall document | Parse(document) == Ok(root)
      ensures Describable(root)
    {
      ParsedIsDescribable(document);
    }
  }

  /** Reprinting a parsed document and parsing it again changes nothing. */
  lemma ReprintIsStable(document: string)
    ensures Parse(document).Ok? ==> Parse(Print(Parse(document).value)) == Parse(document)
  {
    hide Parse, Describable;
    ParsedIsDescribable(document);
    if Parse(document).Ok? {
      RoundTrip(Parse(document).value);
    }
  }
}
