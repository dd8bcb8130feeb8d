/** The indented documents as concrete syntax: fields in any order, `child` and `children`, items with
    and without a type, quoted and bare names, blanks and comments. The parser accepts exactly these
    texts, with these meanings. */
module YamlGrammar {
  import opened Basics
  import opened TreeText
  import opened YamlTree

  // ---------------------------------------------------------------- syntax

  /** A name as it is written. */
  datatype Spelling = Bare(name: string) | Double(name: string) | Single(name: string)

  /** `type:`, some white space, and a name. */
  datatype Tag = Tag(gap: string, spelling: Spelling)

  datatype Field =
    | TypeField(tag: Tag, trail: string)
    | ChildField(block: seq<Field>)
    | ChildrenField(items: seq<Item>)

  /** A dash, the type of the item if it is given there, and the item's other fields below. */
  datatype Item = Item(lead: string, tag: Option<Tag>, trail: string, block: seq<Field>)

  predicate SpellingOk(s: Spelling) {
    && s.name != ""
    && (s.Bare? ==> Tight(s.name) && !LooksQuoted(s.name))
  }

  /** A text that stands in quotes of one kind. */
  predicate LooksQuoted(text: string) {
    |text| >= 2 && (text[0] == '"' || text[0] == '\'') && text[|text| - 1] == text[0]
  }

  predicate TagOk(t: Tag) {
    Blank(t.gap) && SpellingOk(t.spelling)
  }

  function TypeCount(block: seq<Field>): nat {
    if block == [] then 0 else (if block[0].TypeField? then 1 else 0) + TypeCount(block[1..])
  }

  /** The fields of a node that has a type already, or not. */
  predicate BlockOk(block: seq<Field>, typed: bool)
    decreases block, 1
  {
    TypeCount(block) + (if typed then 1 else 0) <= 1 && forall f :: f in block ==> FieldOk(f)
  }

  predicate FieldOk(f: Field)
    decreases f, 0
  {
    match f
    case TypeField(tag, trail) => TagOk(tag) && Blank(trail)
    case ChildField(block) => block != [] && BlockOk(block, false)
    case ChildrenField(items) => items != [] && forall i :: i in items ==> ItemOk(i)
  }

  predicate ItemOk(i: Item)
    decreases i, 0
  {
    && Blank(i.lead) && Blank(i.trail) && (i.tag.Some? ==> TagOk(i.tag.value))
    && (i.tag.None? ==> i.block != [] && i.lead == "")
    && BlockOk(i.block, i.tag.Some?)
  }

  // ---------------------------------------------------------------- text

  function SpellingText(s: Spelling): string {
    match s
    case Bare(name) => name
    case Double(name) => "\"" + name + "\""
    case Single(name) => "'" + name + "'"
  }

  function TagText(t: Tag): string {
    "type:" + t.gap + SpellingText(t.spelling)
  }

  function ItemHead(i: Item): string {
    "-" + i.lead + (if i.tag.Some? then TagText(i.tag.value) else "") + i.trail
  }

  /** The lines of some fields, two columns deeper at each level. */
  function BlockLines(block: seq<Field>, indent: nat): seq<Line>
    decreases block, 1
  {
    if block == [] then [] else FieldLines(block[0], indent) + BlockLines(block[1..], indent)
  }

  function FieldLines(f: Field, indent: nat): (lines: seq<Line>)
    ensures lines != [] && lines[0].indent == indent
    decreases f, 0
  {
    match f
    case TypeField(tag, trail) => [Line(indent, TagText(tag) + trail)]
    case ChildField(block) => [Line(indent, "child:")] + BlockLines(block, indent + 2)
    case ChildrenField(items) => [Line(indent, "children:")] + ItemsLines(items, indent + 2)
  }

  function ItemsLines(items: seq<Item>, indent: nat): seq<Line>
    decreases items, 1
  {
    if items == [] then []
    else [Line(indent, ItemHead(items[0]))] + BlockLines(items[0].block, indent + 2) + ItemsLines(items[1..], indent)
  }

  // ---------------------------------------------------------------- meaning

  function KindOf(i: Item): string {
    if i.tag.Some? then i.tag.value.spelling.name else ""
  }

  /** A node after more of its fields: its type is set once, and children are added in order. */
  function Filled(node: Node, block: seq<Field>): Node
    decreases block, 1
  {
    if block == [] then node else Filled(FilledBy(node, block[0]), block[1..])
  }

  function FilledBy(node: Node, f: Field): Node
    decreases f, 0
  {
    match f
    case TypeField(tag, _) => Node(tag.spelling.name, node.children)
    case ChildField(block) => Node(node.kind, node.children + [Filled(Node("", []), block)])
    case ChildrenField(items) => Node(node.kind, node.children + Nodes(items))
  }

  function Nodes(items: seq<Item>): seq<Node>
    decreases items, 1
  {
    if items == [] then []
    else [Filled(Node(KindOf(items[0]), []), items[0].block)] + Nodes(items[1..])
  }

  // ---------------------------------------------------------------- names

  lemma {:induction false} TrimLeftBlank(blank: string, text: string)
    requires Blank(blank) && (text != "" ==> !IsSpace(text[0]))
    ensures TrimLeft(blank + text) == text
  {
    if blank == "" {
      assert blank + text == text;
    } else {
      assert blank[0] in blank && forall c :: c in blank[1..] ==> c in blank;
      assert (blank + text)[1..] == blank[1..] + text;
      TrimLeftBlank(blank[1..], text);
    }
  }

  lemma {:induction false} TrimRightBlank(text: string, blank: string)
    requires Blank(blank) && (text != "" ==> !IsSpace(text[|text| - 1]))
    ensures TrimRight(text + blank) == text
  {
    if blank == "" {
      assert text + blank == text;
    } else {
      var n := |blank| - 1;
      assert blank[n] in blank && forall c :: c in blank[..n] ==> c in blank;
      assert (text + blank)[..|text + blank| - 1] == text + blank[..n];
      TrimRightBlank(text, blank[..n]);
    }
  }

  /** Trimming takes off exactly the blanks around a text. */
  lemma TrimBoth(before: string, text: string, after: string)
    requires Blank(before) && Blank(after) && (text == "" || Tight(text))
    ensures TrimSpec(before + text + after) == text
  {
    if text == "" {
      assert before + text + after == (before + after) + "";
      TrimLeftBlank(before + after, "");
    } else {
      assert before + text + after == before + (text + after);
      TrimLeftBlank(before, text + after);
      TrimRightBlank(text, after);
    }
  }

  lemma {:induction false} TrimLeftFound(text: string) returns (blank: string)
    ensures Blank(blank) && text == blank + TrimLeft(text)
    ensures TrimLeft(text) != "" ==> !IsSpace(TrimLeft(text)[0])
  {
    if text != "" && IsSpace(text[0]) {
      var more := TrimLeftFound(text[1..]);
      blank := [text[0]] + more;
      assert text == [text[0]] + text[1..];
    } else {
      blank := "";
    }
  }

  lemma {:induction false} TrimRightFound(text: string) returns (blank: string)
    ensures Blank(blank) && text == TrimRight(text) + blank
    ensures TrimRight(text) != "" ==> !IsSpace(TrimRight(text)[|TrimRight(text)| - 1])
  {
    if text != "" && IsSpace(text[|text| - 1]) {
      var n := |text| - 1;
      var more := TrimRightFound(text[..n]);
      blank := more + [text[n]];
      assert text == text[..n] + [text[n]];
    } else {
      blank := "";
    }
  }

  lemma TrimFound(text: string) returns (before: string, after: string)
    ensures Blank(before) && Blank(after) && text == before + TrimSpec(text) + after
    ensures TrimSpec(text) == "" || Tight(TrimSpec(text))
  {
    hide TrimLeft, TrimRight, IsSpace, Blank;
    before := TrimLeftFound(text);
    var left := TrimLeft(text);
    after := TrimRightFound(left);
    var kept := TrimRight(left);
    assert left == kept + after;
    assert kept != "" ==> kept[0] == left[0];
  }

  lemma SpellingTight(s: Spelling)
    requires SpellingOk(s)
    ensures Tight(SpellingText(s)) && Unquote(SpellingText(s)) == s.name
  {
    if !s.Bare? {
      assert SpellingText(s)[1..|SpellingText(s)| - 1] == s.name;
    }
  }

  lemma TagRead(t: Tag, trail: string)
    requires TagOk(t) && Blank(trail)
    ensures IsType(TagText(t) + trail) && TypeValue(TagText(t) + trail) == Result.Ok(t.spelling.name)
    ensures !IsItem(TagText(t) + trail)
  {
    hide TrimSpec, Tight, Unquote;
    var text := TagText(t) + trail;
    assert text[..5] == "type:" && text[..1] == "t";
    assert text[5..] == t.gap + SpellingText(t.spelling) + trail;
    SpellingTight(t.spelling);
    TrimBoth(t.gap, SpellingText(t.spelling), trail);
  }

  lemma SpellingFound(value: string) returns (s: Spelling)
    requires Tight(value) && Unquote(value) != ""
    ensures SpellingOk(s) && SpellingText(s) == value && s.name == Unquote(value)
  {
    s := if Unquote(value) == value then Bare(value)
         else if value[0] == '"' then Double(Unquote(value)) else Single(Unquote(value));
    if !s.Bare? {
      assert value == [value[0]] + value[1..|value| - 1] + [value[|value| - 1]];
    } else {
      QuotesComeOff(value);
    }
  }

  lemma QuotesComeOff(value: string)
    ensures LooksQuoted(value) ==> |Unquote(value)| == |value| - 2
  {
  }

  lemma TagFound(text: string) returns (t: Tag, trail: string)
    requires IsType(text) && TypeValue(text).Ok?
    ensures TagOk(t) && Blank(trail) && text == TagText(t) + trail && TypeValue(text) == Result.Ok(t.spelling.name)
  {
    hide TrimSpec, Tight, Unquote;
    var gap, after := TrimFound(text[5..]);
    EmptyUnquoted();
    var spelling := SpellingFound(TrimSpec(text[5..]));
    t, trail := Tag(gap, spelling), after;
    assert text == "type:" + text[5..];
  }

  lemma EmptyUnquoted()
    ensures Unquote("") == ""
  {
  }

  lemma TagTight(t: Tag)
    requires TagOk(t)
    ensures Tight(TagText(t))
  {
    hide SpellingOk;
    SpellingTight(t.spelling);
    assert TagText(t)[|TagText(t)| - 1] == SpellingText(t.spelling)[|SpellingText(t.spelling)| - 1];
  }

  function HeadText(i: Item): string {
    if i.tag.Some? then TagText(i.tag.value) else ""
  }

  lemma HeadRead(i: Item)
    requires ItemOk(i)
    ensures IsItem(ItemHead(i)) && ItemText(ItemHead(i)) == HeadText(i)
    ensures i.tag.Some? ==> ItemText(ItemHead(i)) != ""
    ensures ItemKind(HeadText(i)) == Result.Ok(KindOf(i))
  {
    hide TrimSpec, Tight, TagText, IsType, TypeValue, TagOk;
    assert ItemHead(i)[..1] == "-";
    assert ItemHead(i)[1..] == i.lead + HeadText(i) + i.trail;
    if i.tag.Some? {
      TagTight(i.tag.value);
      TagRead(i.tag.value, "");
      assert TagText(i.tag.value) + "" == TagText(i.tag.value);
      TagNonempty(i.tag.value);
    }
    TrimBoth(i.lead, HeadText(i), i.trail);
  }

  lemma TagNonempty(t: Tag)
    ensures TagText(t) != ""
  {
  }

  lemma HeadFound(text: string) returns (lead: string, tag: Option<Tag>, trail: string)
    requires IsItem(text) && ItemKind(ItemText(text)).Ok?
    ensures Blank(lead) && Blank(trail) && (tag.Some? ==> TagOk(tag.value)) && (tag.None? ==> lead == "")
    ensures tag.None? <==> ItemText(text) == ""
    ensures text == ItemHead(Item(lead, tag, trail, []))
    ensures ItemKind(ItemText(text)) == Result.Ok(if tag.Some? then tag.value.spelling.name else "")
  {
    hide TrimSpec, Tight, TagText, IsType, TypeValue, TagOk;
    var before, after := TrimFound(text[1..]);
    assert text == "-" + text[1..];
    if ItemText(text) == "" {
      lead, tag, trail := "", None, before + after;
    } else {
      var t, more := TagFound(ItemText(text));
      lead, tag, trail := before, Some(t), more + after;
    }
  }

  // ---------------------------------------------------------------- every block is accepted

  predicate Ends(rest: seq<Line>, indent: nat) {
    rest == [] || rest[0].indent < indent
  }

  lemma FieldRead(line: Line, below: seq<Line>, node: Node, any: bool)
    requires !IsItem(line.text)
    ensures Fields([line] + below, line.indent, node, any) == YamlTree.Field(line.text, below, line.indent, node)
  {
    hide IsItem, YamlTree.Field;
    assert ([line] + below)[0] == line && ([line] + below)[1..] == below;
  }

  lemma ChildKeyword()
    ensures !IsItem("child:") && !IsType("child:") && IsChild("child:")
  {
    assert "child:"[..1] == "c";
    assert "child:"[..5] == "child";
  }

  lemma BlockBegins(block: seq<Field>, indent: nat, rest: seq<Line>)
    requires Ends(rest, indent)
    ensures Ends(BlockLines(block, indent) + rest, indent + 1)
  {
    if block == [] {
      assert BlockLines(block, indent) + rest == rest;
    }
  }

  lemma LaterFields(block: seq<Field>, typed: bool)
    requires block != [] && BlockOk(block, typed)
    ensures FieldOk(block[0]) && BlockOk(block[1..], typed || block[0].TypeField?)
    ensures block[0].TypeField? ==> !typed
  {
  }

  lemma {:induction false} BlockRead(block: seq<Field>, indent: nat, node: Node, any: bool, rest: seq<Line>)
    requires BlockOk(block, node.kind != "") && (any || block != []) && Ends(rest, indent)
    ensures Fields(BlockLines(block, indent) + rest, indent, node, any) ==
      Result.Ok(Parsed(Filled(node, block), rest))
    decreases block, 1
  {
    hide Fields, FieldOk, FilledBy, FieldLines, BlockOk;
    if block == [] {
      assert BlockLines(block, indent) + rest == rest;
      BlockEnds(rest, indent, node);
    } else {
      LaterFields(block, node.kind != "");
      var later := BlockLines(block[1..], indent) + rest;
      BlockBegins(block[1..], indent, rest);
      OneField(block[0], indent, node, any, later);
      FilledKind(block[0], node);
      BlockRead(block[1..], indent, FilledBy(node, block[0]), true, rest);
      assert BlockLines(block, indent) + rest == FieldLines(block[0], indent) + later;
    }
  }

  lemma FilledKind(f: Field, node: Node)
    requires FieldOk(f)
    ensures FilledBy(node, f).kind != "" <==> node.kind != "" || f.TypeField?
  {
  }

  lemma {:induction false} OneField(f: Field, indent: nat, node: Node, any: bool, later: seq<Line>)
    requires FieldOk(f) && (f.TypeField? ==> node.kind == "") && Ends(later, indent + 1)
    ensures Fields(FieldLines(f, indent) + later, indent, node, any) == Fields(later, indent, FilledBy(node, f), true)
    decreases f, 0
  {
    hide Fields, IsItem, IsType, IsChild, IsChildren, TypeValue, BlockOk, ItemOk, TagOk, Filled, Nodes, Items;
    match f {
      case TypeField(tag, trail) =>
        TagRead(tag, trail);
        FieldRead(Line(indent, TagText(tag) + trail), later, node, any);
      case ChildField(block) =>
        var below := BlockLines(block, indent + 2) + later;
        ChildKeyword();
        FieldRead(Line(indent, "child:"), below, node, any);
        BlockRead(block, indent + 2, Node("", []), false, later);
        assert FieldLines(f, indent) + later == [Line(indent, "child:")] + below;
      case ChildrenField(items) =>
        var below := ItemsLines(items, indent + 2) + later;
        YamlTree.ChildrenField();
        FieldRead(Line(indent, "children:"), below, node, any);
        ItemsRead(items, indent + 2, node.children, false, later);
        assert FieldLines(f, indent) + later == [Line(indent, "children:")] + below;
    }
  }

  lemma ItemsSplit(items: seq<Item>, indent: nat, children: seq<Node>, rest: seq<Line>)
    ensures items == [] ==> ItemsLines(items, indent) + rest == rest && children + Nodes(items) == children
    ensures items != [] ==>
      && ItemsLines(items, indent) + rest == [Line(indent, ItemHead(items[0]))] +
           (BlockLines(items[0].block, indent + 2) + (ItemsLines(items[1..], indent) + rest))
      && children + Nodes(items) ==
           (children + [Filled(Node(KindOf(items[0]), []), items[0].block)]) + Nodes(items[1..])
  {
    hide ItemHead, BlockLines, Filled;
  }

  lemma {:induction false} ItemsRead(items: seq<Item>, indent: nat, children: seq<Node>, any: bool, rest: seq<Line>)
    requires (forall i :: i in items ==> ItemOk(i)) && (any || items != []) && Ends(rest, indent)
    ensures Items(ItemsLines(items, indent) + rest, indent, children, any) ==
      Result.Ok(Parsed(children + Nodes(items), rest))
    decreases items, 1
  {
    hide Items, Fields, ItemOk, ItemHead, Filled, ItemsLines, Nodes;
    ItemsSplit(items, indent, children, rest);
    if items == [] {
      BlockEnds(rest, indent, Node("", children));
    } else {
      ItemsBegin(items[1..], indent, rest);
      OneItemRead(items[0], indent, children, any, ItemsLines(items[1..], indent) + rest);
      ItemsRead(items[1..], indent, children + [Filled(Node(KindOf(items[0]), []), items[0].block)], true, rest);
    }
  }

  lemma ItemsBegin(items: seq<Item>, indent: nat, rest: seq<Line>)
    requires Ends(rest, indent)
    ensures Ends(ItemsLines(items, indent) + rest, indent + 1)
  {
    if items == [] {
      assert ItemsLines(items, indent) + rest == rest;
    }
  }

  lemma {:induction false} OneItemRead(i: Item, indent: nat, children: seq<Node>, any: bool, later: seq<Line>)
    requires ItemOk(i) && Ends(later, indent + 1)
    ensures Items([Line(indent, ItemHead(i))] + (BlockLines(i.block, indent + 2) + later), indent, children, any) ==
      Items(later, indent, children + [Filled(Node(KindOf(i), []), i.block)], true)
    decreases i, 0
  {
    hide Items, Fields, ItemHead, HeadText, ItemKind, IsItem, YamlTree.ItemText, Blank, TagOk, Filled, BlockOk;
    var kind := KindOf(i);
    var below := BlockLines(i.block, indent + 2) + later;
    HeadRead(i);
    FirstItem(Line(indent, ItemHead(i)), kind, below, children, any);
    if i.block == [] {
      assert below == later;
      NothingFilled(Node(kind, []));
    } else {
      BlockStarts(i.block, indent + 2, later);
      KindGiven(i);
      BlockRead(i.block, indent + 2, Node(kind, []), false, later);
    }
  }

  lemma KindGiven(i: Item)
    requires ItemOk(i)
    ensures i.tag.Some? ==> i.tag.value.spelling.name != ""
    ensures BlockOk(i.block, i.tag.Some?)
  {
  }

  lemma NothingFilled(node: Node)
    ensures Filled(node, []) == node
  {
  }

  lemma BlockStarts(block: seq<Field>, indent: nat, rest: seq<Line>)
    requires block != []
    ensures var lines := BlockLines(block, indent) + rest; lines != [] && lines[0].indent == indent
  {
  }

  // ---------------------------------------------------------------- nothing else is accepted

  /** What a successful reading of fields has read first. */
  lemma FieldsParts(lines: seq<Line>, indent: nat, node: Node, any: bool)
    requires Fields(lines, indent, node, any).Ok?
    ensures Ends(lines, indent) ==> any && Fields(lines, indent, node, any) == Result.Ok(Parsed(node, lines))
    ensures !Ends(lines, indent) ==>
      && lines[0].indent == indent && lines == [lines[0]] + lines[1..]
      && Fields(lines, indent, node, any) == YamlTree.Field(lines[0].text, lines[1..], indent, node)
  {
    hide YamlTree.Field, IsItem;
  }

  lemma MoreBlock(f: Field, more: seq<Field>, indent: nat, node: Node, typed: bool)
    requires FieldOk(f) && BlockOk(more, typed || f.TypeField?) && (f.TypeField? ==> !typed)
    ensures BlockOk([f] + more, typed)
    ensures BlockLines([f] + more, indent) == FieldLines(f, indent) + BlockLines(more, indent)
    ensures Filled(node, [f] + more) == Filled(FilledBy(node, f), more)
  {
    hide FieldOk, FieldLines, FilledBy;
    assert ([f] + more)[1..] == more;
  }

  lemma {:induction false} BlockFound(lines: seq<Line>, indent: nat, node: Node, any: bool) returns (block: seq<Field>)
    requires Fields(lines, indent, node, any).Ok?
    ensures BlockOk(block, node.kind != "") && (any || block != [])
    ensures var r := Fields(lines, indent, node, any).value;
      lines == BlockLines(block, indent) + r.rest && r.value == Filled(node, block) && Ends(r.rest, indent)
    decreases |lines|, 1
  {
    hide Fields, FieldOk, FilledBy, FieldLines, YamlTree.Field, BlockOk;
    FieldsParts(lines, indent, node, any);
    if Ends(lines, indent) {
      block := [];
      NoBlock(indent, node);
      assert [] + lines == lines;
    } else {
      var f, later := FieldFound(lines, indent, node, any);
      var more := BlockFound(later, indent, FilledBy(node, f), true);
      FilledKind(f, node);
      MoreBlock(f, more, indent, node, node.kind != "");
      block := [f] + more;
      assert FieldLines(f, indent) + (BlockLines(more, indent) + Fields(lines, indent, node, any).value.rest) == lines;
    }
  }

  lemma NoBlock(indent: nat, node: Node)
    ensures BlockOk([], node.kind != "") && BlockLines([], indent) == [] && Filled(node, []) == node
  {
  }

  lemma {:induction false} FieldFound(lines: seq<Line>, indent: nat, node: Node, any: bool)
    returns (f: Field, later: seq<Line>)
    requires Fields(lines, indent, node, any).Ok? && !Ends(lines, indent)
    ensures FieldOk(f) && (f.TypeField? ==> node.kind == "")
    ensures lines == FieldLines(f, indent) + later && |later| < |lines|
    ensures Fields(lines, indent, node, any) == Fields(later, indent, FilledBy(node, f), true)
    decreases |lines|, 0
  {
    hide Fields, IsItem, IsType, TypeValue, BlockOk, ItemOk, TagOk, Filled, Nodes, Items;
    FieldsParts(lines, indent, node, any);
    var text, below := lines[0].text, lines[1..];
    if IsType(text) {
      var t, trail := TagFound(text);
      f, later := TypeField(t, trail), below;
    } else if IsChild(text) {
      var block := BlockFound(below, indent + 2, Node("", []), false);
      f, later := ChildField(block), Fields(below, indent + 2, Node("", []), false).value.rest;
      EmptyKind();
      assert lines == [Line(indent, "child:")] + (BlockLines(block, indent + 2) + later);
    } else {
      var items := ItemsFound(below, indent + 2, node.children, false);
      f, later := ChildrenField(items), Items(below, indent + 2, node.children, false).value.rest;
      assert lines == [Line(indent, "children:")] + (ItemsLines(items, indent + 2) + later);
    }
  }

  lemma EmptyKind()
    ensures Node("", []).kind == ""
  {
  }

  /** What a successful reading of items has read first. */
  lemma ItemsParts(lines: seq<Line>, indent: nat, children: seq<Node>, any: bool)
    requires Items(lines, indent, children, any).Ok?
    ensures lines != [] && lines[0].indent == indent && IsItem(lines[0].text) ==>
      ItemKind(YamlTree.ItemText(lines[0].text)).Ok?
    ensures !(lines != [] && lines[0].indent == indent && IsItem(lines[0].text)) ==>
      any && Items(lines, indent, children, any) == Result.Ok(Parsed(children, lines))
  {
    hide Fields, IsItem, YamlTree.ItemText, ItemKind;
  }

  lemma {:induction false} ItemsFound(lines: seq<Line>, indent: nat, children: seq<Node>, any: bool)
    returns (items: seq<Item>)
    requires Items(lines, indent, children, any).Ok?
    ensures (forall i :: i in items ==> ItemOk(i)) && (any || items != [])
    ensures var r := Items(lines, indent, children, any).value;
      lines == ItemsLines(items, indent) + r.rest && r.value == children + Nodes(items)
    decreases |lines|, 1
  {
    hide Items, IsItem, ItemOk, ItemHead, Filled, ItemsLines, Nodes, ItemKind, YamlTree.ItemText;
    ItemsParts(lines, indent, children, any);
    var rest := Items(lines, indent, children, any).value.rest;
    if lines != [] && lines[0].indent == indent && IsItem(lines[0].text) {
      var i, later := ItemFound(lines, indent, children, any);
      var more := ItemsFound(later, indent, children + [Filled(Node(KindOf(i), []), i.block)], true);
      items := [i] + more;
      assert items[1..] == more;
      ItemsSplit(items, indent, children, rest);
    } else {
      items := [];
      ItemsSplit(items, indent, children, rest);
    }
  }

  lemma {:induction false} ItemFound(lines: seq<Line>, indent: nat, children: seq<Node>, any: bool)
    returns (i: Item, later: seq<Line>)
    requires Items(lines, indent, children, any).Ok?
    requires lines != [] && lines[0].indent == indent && IsItem(lines[0].text)
    ensures ItemOk(i) && |later| < |lines|
    ensures lines == [Line(indent, ItemHead(i))] + (BlockLines(i.block, indent + 2) + later)
    ensures Items(lines, indent, children, any) ==
      Items(later, indent, children + [Filled(Node(KindOf(i), []), i.block)], true)
    decreases |lines|, 0
  {
    hide Items, Fields, ItemKind, IsItem, YamlTree.ItemText, Blank, TagOk, Filled, BlockOk, TagText;
    ItemsParts(lines, indent, children, any);
    var text, below := lines[0].text, lines[1..];
    var lead, tag, trail := HeadFound(text);
    var kind := if tag.Some? then tag.value.spelling.name else "";
    assert lines == [lines[0]] + below;
    FirstItem(lines[0], kind, below, children, any);
    var block := [];
    later := below;
    if tag.None? || !Shallow(below, indent) {
      block := BlockFound(below, indent + 2, Node(kind, []), false);
      later := Fields(below, indent + 2, Node(kind, []), false).value.rest;
    } else {
      NoBlock(indent + 2, Node(kind, []));
      assert [] + below == below;
    }
    i := Item(lead, tag, trail, block);
    KindNamed(tag);
    NothingTyped();
    assert ItemHead(i) == ItemHead(Item(lead, tag, trail, []));
  }

  lemma KindNamed(tag: Option<Tag>)
    requires tag.Some? ==> TagOk(tag.value)
    ensures tag.Some? ==> tag.value.spelling.name != ""
  {
  }

  lemma NothingTyped()
    ensures BlockOk([], true)
  {
  }

  // ---------------------------------------------------------------- lines

  /** A line as it is written: its indentation, blanks, what it says if anything, and a comment. */
  datatype Raw = Raw(indent: nat, lead: string, text: string, trail: string, comment: string)

  /** What comes after the indentation. */
  function Body(r: Raw): string {
    r.lead + r.text + r.trail + r.comment
  }

  /** The indentation is all the spaces at the beginning, and no tab follows it. */
  predicate RawOk(r: Raw) {
    && Blank(r.lead) && Blank(r.trail) && (r.text == "" || Tight(r.text)) && '#' !in r.text
    && (r.comment != "" ==> r.comment[0] == '#') && '\n' !in Body(r)
    && (Body(r) != "" ==> Body(r)[0] != ' ' && Body(r)[0] != '\t')
  }

  function RawText(r: Raw): string {
    Spaces(r.indent) + Body(r)
  }

  function ContentLine(r: Raw): seq<Line> {
    if r.text == "" then [] else [Line(r.indent, r.text)]
  }

  lemma {:induction false} IndentCounted(n: nat, body: string)
    requires body != "" ==> body[0] != ' '
    ensures LeadingSpaces(Spaces(n) + body) == n && (Spaces(n) + body)[n..] == body
  {
    if n > 0 {
      assert (Spaces(n) + body)[1..] == Spaces(n - 1) + body;
      IndentCounted(n - 1, body);
    } else {
      assert Spaces(0) + body == body;
    }
  }

  lemma NoHash(blank: string)
    requires Blank(blank)
    ensures '#' !in blank
  {
  }

  /** What is left of a comment when blanks at its end are taken off still begins with its mark. */
  lemma CommentTrimmed(text: string, comment: string) returns (kept: string)
    requires comment != "" && comment[0] == '#' && (text != "" ==> !IsSpace(text[0]))
    ensures TrimSpec(text + comment) == text + kept && kept != "" && kept[0] == '#'
  {
    hide TrimRight;
    var all := text + comment;
    assert all[0] == (if text == "" then '#' else text[0]);
    assert TrimLeft(all) == all;
    var blank := TrimRightFound(all);
    var trimmed := TrimRight(all);
    if |trimmed| <= |text| {
      assert all[|text|] == '#';
      assert blank[|text| - |trimmed|] == '#' && '#' in blank;
      NoHash(blank);
      assert false;
    }
    kept := trimmed[|text|..];
    assert trimmed == all[..|trimmed|] && trimmed[..|text|] == text;
  }

  /** What a line says is what stands between the blanks, up to a comment. */
  lemma ContentRead(r: Raw)
    requires RawOk(r)
    ensures Content(Body(r)) == r.text
  {
    hide Before, TrimSpec, TrimLeft, TrimRight, IsSpace, Tight;
    var text := if r.text == "" then "" else r.text + r.trail;
    NoHash(r.lead);
    NoHash(r.trail);
    if r.comment == "" {
      assert Body(r) == r.lead + r.text + r.trail;
      TrimBoth(r.lead, r.text, r.trail);
      assert r.text[..|r.text|] == r.text;
      BeforeAt(r.text, '#', |r.text|);
    } else {
      TightBegins(r.text);
      var kept := CommentTrimmed(text, r.comment);
      LeadTrimmed(r, text);
      var trimmed := text + kept;
      assert trimmed[..|text|] == text && trimmed[|text|] == '#';
      BeforeAt(trimmed, '#', |text|);
      assert "" + r.text + (if r.text == "" then "" else r.trail) == text;
      EmptyBlank();
      TrimBoth("", r.text, if r.text == "" then "" else r.trail);
    }
  }

  lemma EmptyBlank()
    ensures Blank("")
  {
  }

  lemma TightBegins(text: string)
    ensures Tight(text) ==> text != "" && !IsSpace(text[0])
  {
  }

  lemma LeadTrimmed(r: Raw, text: string)
    requires RawOk(r) && r.comment != "" && text == if r.text == "" then "" else r.text + r.trail
    ensures TrimSpec(Body(r)) == TrimSpec(text + r.comment)
  {
    hide TrimRight;
    var before := if r.text == "" then r.lead + r.trail else r.lead;
    assert Body(r) == before + (text + r.comment);
    TrimLeftBlank(before, text + r.comment);
    EmptyBlank();
    TrimLeftBlank("", text + r.comment);
    assert "" + (text + r.comment) == text + r.comment;
  }

  lemma LineRead(r: Raw)
    requires RawOk(r)
    ensures LineOf(RawText(r)) == Result.Ok(ContentLine(r))
  {
    hide Content, LeadingSpaces, Blank, Tight;
    IndentCounted(r.indent, Body(r));
    ContentRead(r);
  }

  lemma LineFound(raw: string) returns (r: Raw)
    requires '\n' !in raw && LineOf(raw).Ok?
    ensures RawOk(r) && RawText(r) == raw && LineOf(raw) == Result.Ok(ContentLine(r))
  {
    hide LeadingSpaces, Before, TrimSpec, TrimLeft, TrimRight, IsSpace, Tight, Blank;
    var n := LeadingSpaces(raw);
    var body := raw[n..];
    assert raw == Spaces(n) + body;
    var lead, after := TrimFound(body);
    var trimmed := TrimSpec(body);
    var kept := Before(trimmed, '#');
    if kept == trimmed {
      r := Raw(n, lead, trimmed, after, "");
      assert Body(r) == body;
    } else {
      var more, trail := TrimFound(kept);
      var comment := trimmed[|kept|..] + after;
      r := Raw(n, lead + more, TrimSpec(kept), trail, comment);
      assert trimmed == kept + trimmed[|kept|..];
      assert Body(r) == lead + kept + comment;
      assert body == lead + trimmed + after;
      assert Body(r) == body;
      BothBlank(lead, more);
      TrimKeeps(kept, '#');
    }
  }

  lemma BothBlank(a: string, b: string)
    requires Blank(a) && Blank(b)
    ensures Blank(a + b)
  {
  }

  // ---------------------------------------------------------------- documents

  predicate RawsOk(raws: seq<Raw>) {
    forall r :: r in raws ==> RawOk(r)
  }

  /** The lines with a newline between them. */
  function Joined(raws: seq<Raw>): string
    requires raws != []
  {
    if |raws| == 1 then RawText(raws[0]) else RawText(raws[0]) + "\n" + Joined(raws[1..])
  }

  function Contents(raws: seq<Raw>): seq<Line> {
    if raws == [] then [] else ContentLine(raws[0]) + Contents(raws[1..])
  }

  lemma NoNewline(r: Raw)
    requires RawOk(r)
    ensures '\n' !in RawText(r)
  {
  }

  lemma {:induction false} LinesRead(raws: seq<Raw>)
    requires raws != [] && RawsOk(raws)
    ensures Lines(Joined(raws)) == Result.Ok(Contents(raws))
  {
    hide Before, LineOf, RawOk, RawText, ContentLine;
    var first := RawText(raws[0]);
    LineRead(raws[0]);
    NoNewline(raws[0]);
    if |raws| == 1 {
      assert first[..|first|] == first;
      BeforeAt(first, '\n', |first|);
      assert Contents(raws[1..]) == [] && ContentLine(raws[0]) + [] == ContentLine(raws[0]);
    } else {
      var document := Joined(raws);
      BeforeNewline(first, Joined(raws[1..]));
      assert document[|first| + 1..] == Joined(raws[1..]);
      LinesRead(raws[1..]);
    }
  }

  lemma {:induction false} LinesFound(document: string) returns (raws: seq<Raw>)
    requires Lines(document).Ok?
    ensures raws != [] && RawsOk(raws) && document == Joined(raws) && Lines(document) == Result.Ok(Contents(raws))
    decreases |document|
  {
    hide Before, LineOf, RawOk, RawText, ContentLine;
    var raw := Before(document, '\n');
    var r := LineFound(raw);
    if |raw| == |document| {
      raws := [r];
      assert Contents(raws[1..]) == [] && ContentLine(r) + [] == ContentLine(r);
    } else {
      var more := LinesFound(document[|raw| + 1..]);
      raws := [r] + more;
      assert raws[1..] == more;
      assert document == raw + "\n" + document[|raw| + 1..];
    }
  }

  /** The document is made of these lines, and what they say is the root with these fields. */
  ghost predicate IsText(document: string, raws: seq<Raw>, block: seq<Field>) {
    && raws != [] && RawsOk(raws) && document == Joined(raws)
    && block != [] && BlockOk(block, false)
    && Contents(raws) == [Line(0, "root:")] + BlockLines(block, 2)
  }

  /** The parser returns a tree if and only if the document is the text of a block that describes it. */
  lemma ParsesExactly(document: string, root: Node)
    ensures Parse(document) == Result.Ok(root) <==>
      exists raws, block :: IsText(document, raws, block) && Filled(Node("", []), block) == root
  {
    hide Lines, Fields, Contents, Joined, BlockLines, BlockOk, RawsOk, Filled;
    var empty := Node("", []);
    if Parse(document) == Result.Ok(root) {
      var raws := LinesFound(document);
      var lines := Contents(raws);
      var block := BlockFound(lines[1..], 2, empty, false);
      assert lines[1..] == BlockLines(block, 2) + [] == BlockLines(block, 2);
      assert lines == [Line(0, "root:")] + lines[1..];
      assert IsText(document, raws, block);
    }
    forall raws, block | IsText(document, raws, block) && Filled(empty, block) == root
      ensures Parse(document) == Result.Ok(root)
    {
      LinesRead(raws);
      var lines := Contents(raws);
      assert lines[1..] == BlockLines(block, 2) + [];
      BlockRead(block, 2, empty, false, []);
    }
  }
}
