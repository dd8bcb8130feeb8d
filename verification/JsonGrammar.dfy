/** The JSON documents as concrete syntax: white space, escapes, numbers and all, with the text and the
    meaning of each piece. The parser accepts exactly these texts, with these meanings. */
module JsonGrammar {
  import opened Basics
  import opened TreeText
  import opened JsonTree

  // ---------------------------------------------------------------- syntax

  /** A character of a string literal as it is written. */
  datatype Mark = Plain(c: char) | Escaped(c: char)

  datatype Exponent = Exponent(letter: char, sign: string, digits: string)

  datatype Numeral = Numeral(minus: bool, whole: string, fraction: Option<string>, exponent: Option<Exponent>)

  datatype Syntax =
    | Word(word: string)
    | Numeric(numeral: Numeral)
    | Quoted(marks: seq<Mark>)
    | Braces(blank: string, members: seq<Member>)
    | Brackets(blank: string, items: seq<Item>)

  /** A value between white space. */
  datatype Item = Item(before: string, syntax: Syntax, after: string)

  /** A key between white space, and its value. */
  datatype Member = Member(before: string, key: seq<Mark>, after: string, value: Item)

  predicate Digits(s: string) {
    s != "" && forall c :: c in s ==> '0' <= c <= '9'
  }

  predicate MarkOk(m: Mark) {
    match m
    case Plain(c) => c >= ' ' && c != '"' && c != '\\'
    case Escaped(c) => c in "\"\\/bfnrt"
  }

  predicate MarksOk(marks: seq<Mark>) {
    forall m :: m in marks ==> MarkOk(m)
  }

  predicate NumeralOk(n: Numeral) {
    && Digits(n.whole)
    && (n.fraction.Some? ==> Digits(n.fraction.value))
    && (n.exponent.Some? ==>
          && (n.exponent.value.letter == 'e' || n.exponent.value.letter == 'E')
          && (n.exponent.value.sign == "" || n.exponent.value.sign == "+" || n.exponent.value.sign == "-")
          && Digits(n.exponent.value.digits))
  }

  predicate SyntaxOk(x: Syntax)
    decreases x, 0
  {
    match x
    case Word(word) => word == "true" || word == "false" || word == "null"
    case Numeric(numeral) => NumeralOk(numeral)
    case Quoted(marks) => MarksOk(marks)
    case Braces(blank, members) =>
      Blank(blank) && MembersOk(members) && DistinctKeys(members)
    case Brackets(blank, items) => Blank(blank) && ItemsOk(items)
  }

  predicate ItemOk(i: Item)
    decreases i, 1
  {
    Blank(i.before) && SyntaxOk(i.syntax) && Blank(i.after)
  }

  predicate MembersOk(members: seq<Member>)
    decreases members, 1
  {
    forall m :: m in members ==> Blank(m.before) && MarksOk(m.key) && Blank(m.after) && ItemOk(m.value)
  }

  predicate ItemsOk(items: seq<Item>)
    decreases items, 2
  {
    forall i :: i in items ==> ItemOk(i)
  }

  predicate DistinctKeys(members: seq<Member>) {
    forall i, j :: 0 <= i < j < |members| ==> Spelled(members[i].key) != Spelled(members[j].key)
  }

  // ---------------------------------------------------------------- text

  function MarkText(m: Mark): string {
    match m
    case Plain(c) => [c]
    case Escaped(c) => ['\\', c]
  }

  function MarksText(marks: seq<Mark>): string {
    if marks == [] then "" else MarkText(marks[0]) + MarksText(marks[1..])
  }

  function FractionText(fraction: Option<string>): string {
    if fraction.Some? then "." + fraction.value else ""
  }

  function ExponentText(exponent: Option<Exponent>): string {
    if exponent.Some? then [exponent.value.letter] + exponent.value.sign + exponent.value.digits else ""
  }

  function NumeralText(n: Numeral): string {
    (if n.minus then "-" else "") + n.whole + FractionText(n.fraction) + ExponentText(n.exponent)
  }

  function SyntaxText(x: Syntax): string
    decreases x, 0
  {
    match x
    case Word(word) => word
    case Numeric(numeral) => NumeralText(numeral)
    case Quoted(marks) => "\"" + MarksText(marks) + "\""
    case Braces(blank, members) => "{" + (if members == [] then blank + "}" else MembersText(members))
    case Brackets(blank, items) => "[" + (if items == [] then blank + "]" else ElementsText(items))
  }

  function ItemText(i: Item): string
    decreases i, 1
  {
    i.before + SyntaxText(i.syntax) + i.after
  }

  function MemberText(m: Member): string
    decreases m, 2
  {
    m.before + "\"" + MarksText(m.key) + "\"" + m.after + ":" + ItemText(m.value)
  }

  function MembersText(members: seq<Member>): string
    requires members != []
    decreases members, 3
  {
    MemberText(members[0]) + (if |members| == 1 then "}" else "," + MembersText(members[1..]))
  }

  function ElementsText(items: seq<Item>): string
    requires items != []
    decreases items, 2
  {
    ItemText(items[0]) + (if |items| == 1 then "]" else "," + ElementsText(items[1..]))
  }

  // ---------------------------------------------------------------- meaning

  function MarkMeans(m: Mark): char {
    match m
    case Plain(c) => c
    case Escaped(c) =>
      match c
      case 'b' => '\U{8}'
      case 'f' => '\U{C}'
      case 'n' => '\n'
      case 'r' => '\r'
      case 't' => '\t'
      case _ => c
  }

  function Spelled(marks: seq<Mark>): string {
    if marks == [] then "" else [MarkMeans(marks[0])] + Spelled(marks[1..])
  }

  function Meaning(x: Syntax): Json
    decreases x, 0
  {
    match x
    case Word(word) => if word == "true" then Bool(true) else if word == "false" then Bool(false) else Null
    case Numeric(numeral) => Number(NumeralText(numeral))
    case Quoted(marks) => Text(Spelled(marks))
    case Braces(_, members) => Object(Fields(members, map[]))
    case Brackets(_, items) => Array(Meanings(items))
  }

  /** The fields of an object whose first fields are already known. */
  function Fields(members: seq<Member>, known: map<string, Json>): map<string, Json>
    decreases members, 1
  {
    if members == [] then known
    else Fields(members[1..], known[Spelled(members[0].key) := Meaning(members[0].value.syntax)])
  }

  function Meanings(items: seq<Item>): seq<Json>
    decreases items, 1
  {
    if items == [] then [] else [Meaning(items[0].syntax)] + Meanings(items[1..])
  }

  // ---------------------------------------------------------------- every document is accepted

  lemma {:induction false} SkipsBlank(blank: string, rest: string)
    requires Blank(blank) && (rest != "" ==> !IsSpace(rest[0]))
    ensures Skip(blank + rest) == rest
  {
    if blank == "" {
      assert blank + rest == rest;
    } else {
      assert blank[0] in blank;
      assert (blank + rest)[1..] == blank[1..] + rest;
      assert forall c :: c in blank[1..] ==> c in blank;
      SkipsBlank(blank[1..], rest);
    }
  }

  lemma OneMark(m: Mark, rest: string, text: string)
    requires MarkOk(m)
    ensures StringBody(MarkText(m) + rest, text) == StringBody(rest, text + [MarkMeans(m)])
  {
    var s := MarkText(m) + rest;
    match m {
      case Plain(c) =>
        assert s[0] == c && s[1..] == rest;
      case Escaped(c) =>
        assert s[0] == '\\' && s[1] == c && s[2..] == rest;
        assert Unescape(c) == Result.Ok(MarkMeans(m));
    }
  }

  lemma {:induction false} MarksRead(marks: seq<Mark>, rest: string, text: string)
    requires MarksOk(marks)
    ensures StringBody(MarksText(marks) + "\"" + rest, text) == Result.Ok(Parsed(text + Spelled(marks), rest))
  {
    hide StringBody, MarkOk;
    var s := MarksText(marks) + "\"" + rest;
    if marks == [] {
      assert s == "\"" + rest;
      StringEnds(rest, text);
      assert text + Spelled(marks) == text;
    } else {
      var tail := MarksText(marks[1..]) + "\"" + rest;
      assert s == MarkText(marks[0]) + tail;
      OneMark(marks[0], tail, text);
      MarksRead(marks[1..], rest, text + [MarkMeans(marks[0])]);
      assert text + [MarkMeans(marks[0])] + Spelled(marks[1..]) == text + Spelled(marks);
    }
  }

  /** What may follow a number without becoming part of it. */
  predicate Follows(rest: string) {
    rest != "" ==> !('0' <= rest[0] <= '9') && rest[0] != '.' && rest[0] != 'e' && rest[0] != 'E'
  }

  lemma {:induction false} DigitsCounted(digits: string, rest: string)
    requires (forall c :: c in digits ==> '0' <= c <= '9') && (rest != "" ==> !('0' <= rest[0] <= '9'))
    ensures DigitCount(digits + rest) == |digits|
  {
    if digits == "" {
      assert digits + rest == rest;
    } else {
      assert digits[0] in digits;
      assert (digits + rest)[1..] == digits[1..] + rest;
      assert forall c :: c in digits[1..] ==> c in digits;
      DigitsCounted(digits[1..], rest);
    }
  }

  lemma WithDigitsRead(before: string, digits: string, rest: string)
    requires Digits(digits) && (rest != "" ==> !('0' <= rest[0] <= '9'))
    ensures WithDigits(before + digits + rest, |before|) == Result.Ok(|before + digits|)
  {
    assert (before + digits + rest)[|before|..] == digits + rest;
    DigitsCounted(digits, rest);
  }

  lemma FractionRead(before: string, fraction: Option<string>, rest: string)
    requires fraction.Some? ==> Digits(fraction.value)
    requires rest != "" ==> !('0' <= rest[0] <= '9') && rest[0] != '.'
    ensures FractionEnd(before + FractionText(fraction) + rest, |before|) ==
      Result.Ok(|before + FractionText(fraction)|)
  {
    hide WithDigits, Digits;
    var s := before + FractionText(fraction) + rest;
    if fraction.Some? {
      assert s == (before + ".") + fraction.value + rest;
      WithDigitsRead(before + ".", fraction.value, rest);
    } else {
      assert s == before + rest;
    }
  }

  lemma ExponentRead(before: string, exponent: Option<Exponent>, rest: string)
    requires NumeralOk(Numeral(false, "0", None, exponent)) && Follows(rest)
    ensures ExponentEnd(before + ExponentText(exponent) + rest, |before|) ==
      Result.Ok(|before + ExponentText(exponent)|)
  {
    hide WithDigits;
    var s := before + ExponentText(exponent) + rest;
    if exponent.Some? {
      var e := exponent.value;
      assert s == before + [e.letter] + e.sign + e.digits + rest;
      assert s[|before|] == e.letter;
      assert e.digits[0] in e.digits;
      assert s[|before| + 1] == (e.sign + e.digits)[0];
      assert SignLength(s, |before| + 1) == |e.sign|;
      WithDigitsRead(before + [e.letter] + e.sign, e.digits, rest);
    } else {
      assert s == before + rest;
    }
  }

  lemma NumberRead(n: Numeral, rest: string)
    requires NumeralOk(n) && Follows(rest)
    ensures var s := NumeralText(n) + rest;
      s != "" && (s[0] == '-' || IsDigit(s[0])) && NumberEnd(s) == Result.Ok(|NumeralText(n)|)
  {
    hide WithDigits, FractionEnd, ExponentEnd, FractionText, ExponentText, Digits;
    var sign := if n.minus then "-" else "";
    var fraction, exponent := FractionText(n.fraction), ExponentText(n.exponent);
    assert NumeralOk(Numeral(false, "0", n.fraction, n.exponent)) by { ZeroIsDigits(); }
    PartsBegin(n.fraction, n.exponent, rest);
    FirstDigit(sign, n.whole, fraction + exponent + rest);
    WithDigitsRead(sign, n.whole, fraction + exponent + rest);
    FractionRead(sign + n.whole, n.fraction, exponent + rest);
    ExponentRead(sign + n.whole + fraction, n.exponent, rest);
    assert NumeralText(n) + rest == sign + n.whole + (fraction + exponent + rest);
    assert NumeralText(n) + rest == sign + n.whole + fraction + (exponent + rest);
  }

  lemma ZeroIsDigits()
    ensures Digits("0")
  {
  }

  lemma FirstDigit(sign: string, digits: string, rest: string)
    requires Digits(digits)
    ensures |sign + digits + rest| > |sign| && IsDigit((sign + digits + rest)[|sign|])
  {
    assert digits[0] in digits && (sign + digits + rest)[|sign|] == digits[0];
  }

  /** No text after a number's part begins with a digit unless it is one. */
  lemma PartsBegin(fraction: Option<string>, exponent: Option<Exponent>, rest: string)
    requires NumeralOk(Numeral(false, "0", fraction, exponent)) && Follows(rest)
    ensures var tail := ExponentText(exponent) + rest;
      tail != "" ==> !('0' <= tail[0] <= '9') && tail[0] != '.'
    ensures var tail := FractionText(fraction) + ExponentText(exponent) + rest;
      tail != "" ==> !('0' <= tail[0] <= '9')
  {
  }

  /** A value's text begins with a character of its own. */
  lemma TextBegins(x: Syntax)
    requires SyntaxOk(x)
    ensures SyntaxText(x) != "" && !IsSpace(SyntaxText(x)[0])
    ensures (SyntaxText(x)[0] == '{' <==> x.Braces?) && (SyntaxText(x)[0] == '[' <==> x.Brackets?)
  {
    hide MembersText, ElementsText, MarksText, FractionText, ExponentText, MembersOk, ItemsOk;
    if x.Numeric? {
      var n := x.numeral;
      FirstDigit("", n.whole, FractionText(n.fraction) + ExponentText(n.exponent));
      assert NumeralText(n) == (if n.minus then "-" else "") + (n.whole + FractionText(n.fraction) +
        ExponentText(n.exponent));
    }
  }

  lemma ScalarAccepts(x: Syntax, rest: string)
    requires SyntaxOk(x) && Follows(rest) && !x.Braces? && !x.Brackets?
    ensures SyntaxText(x) + rest != "" && Scalar(SyntaxText(x) + rest) == Result.Ok(Parsed(Meaning(x), rest))
  {
    hide StringBody, NumberEnd, MarksText, NumeralText, Spelled, NumeralOk;
    var t := SyntaxText(x) + rest;
    match x {
      case Word(word) =>
        assert t[..|word|] == word && t[|word|..] == rest;
      case Numeric(numeral) =>
        NumberRead(numeral, rest);
        assert t[..|NumeralText(numeral)|] == NumeralText(numeral) && t[|NumeralText(numeral)|..] == rest;
      case Quoted(marks) =>
        MarksRead(marks, rest, "");
        assert t[1..] == MarksText(marks) + "\"" + rest;
        assert "" + Spelled(marks) == Spelled(marks);
    }
  }

  /** What may come after a value: nothing, white space, or a separator. */
  lemma AfterValue(after: string, c: char, rest: string)
    requires Blank(after) && (c == ',' || c == '}' || c == ']')
    ensures Follows(after + [c] + rest) && Skip(after + [c] + rest) == [c] + rest
  {
    assert after + [c] + rest == after + ([c] + rest);
    SkipsBlank(after, [c] + rest);
    assert after != "" ==> after[0] in after;
  }

  lemma Opens(s: string, t: string)
    requires Skip(s) == t && t != ""
    ensures Value(s) ==
      if t[0] == '{' then
        if Begins(Skip(t[1..]), '}') then Result.Ok(Parsed(Object(map[]), Skip(t[1..])[1..]))
        else Members(t[1..], map[])
      else if t[0] == '[' then
        if Begins(Skip(t[1..]), ']') then Result.Ok(Parsed(Array([]), Skip(t[1..])[1..]))
        else JsonTree.Elements(t[1..], [])
      else Scalar(t)
  {
    hide Skip, Members, JsonTree.Elements, Scalar;
  }

  lemma ClosesAtOnce(blank: string, c: char, rest: string)
    requires Blank(blank) && (c == '}' || c == ']')
    ensures Skip(blank + [c] + rest) == [c] + rest && Begins([c] + rest, c) && ([c] + rest)[1..] == rest
  {
    assert blank + [c] + rest == blank + ([c] + rest);
    SkipsBlank(blank, [c] + rest);
  }

  lemma NoFields()
    ensures Fields([], map[]) == map[] && Meanings([]) == []
  {
  }

  lemma {:induction false} ValueAccepts(before: string, x: Syntax, rest: string)
    requires Blank(before) && SyntaxOk(x) && Follows(rest)
    ensures Value(before + SyntaxText(x) + rest) == Result.Ok(Parsed(Meaning(x), rest))
    decreases x, 0
  {
    hide Value, Skip, Members, JsonTree.Elements, Scalar, MembersText, ElementsText, IsSpace, Blank, Follows,
      MembersOk, ItemsOk, Fields, Meanings, Begins, DistinctKeys;
    var t := SyntaxText(x) + rest;
    TextBegins(x);
    SkipsBlank(before, t);
    assert before + SyntaxText(x) + rest == before + t;
    Opens(before + t, t);
    NoFields();
    match x {
      case Braces(blank, members) =>
        if members == [] {
          assert t[1..] == blank + ['}'] + rest;
          ClosesAtOnce(blank, '}', rest);
        } else {
          assert t[1..] == MembersText(members) + rest;
          MembersBegin(members, rest);
          MembersAccept(members, map[], rest);
        }
      case Brackets(blank, items) =>
        if items == [] {
          assert t[1..] == blank + [']'] + rest;
          ClosesAtOnce(blank, ']', rest);
        } else {
          assert t[1..] == ElementsText(items) + rest;
          ElementsBegin(items, rest);
          ElementsAccept(items, [], rest);
          assert [] + Meanings(items) == Meanings(items);
        }
      case _ =>
        ScalarAccepts(x, rest);
    }
  }

  lemma MembersBegin(members: seq<Member>, rest: string)
    requires members != [] && MembersOk(members)
    ensures !Begins(Skip(MembersText(members) + rest), '}')
  {
    hide Skip, ItemText, MarksText;
    var m := members[0];
    var tail := "\"" + MarksText(m.key) + "\"" + m.after + ":" + ItemText(m.value) +
      (if |members| == 1 then "}" else "," + MembersText(members[1..])) + rest;
    assert MembersText(members) + rest == m.before + tail;
    assert m in members;
    SkipsBlank(m.before, tail) by { Punctuation(); }
  }

  lemma ElementsBegin(items: seq<Item>, rest: string)
    requires items != [] && ItemsOk(items)
    ensures !Begins(Skip(ElementsText(items) + rest), ']')
  {
    hide Skip, SyntaxText;
    var i := items[0];
    var tail := SyntaxText(i.syntax) + i.after + (if |items| == 1 then "]" else "," + ElementsText(items[1..])) + rest;
    assert ElementsText(items) + rest == i.before + tail;
    assert i in items;
    TextBegins(i.syntax);
    NoBracket(i.syntax);
    SkipsBlank(i.before, tail);
  }

  lemma NoBracket(x: Syntax)
    requires SyntaxOk(x) && SyntaxText(x) != ""
    ensures SyntaxText(x)[0] != ']'
  {
    if x.Numeric? {
      var n := x.numeral;
      FirstDigit(if n.minus then "-" else "", n.whole, FractionText(n.fraction) + ExponentText(n.exponent));
    }
  }

  lemma KeyAccepts(m: Member, rest: string)
    requires Blank(m.before) && MarksOk(m.key) && Blank(m.after)
    ensures Key(m.before + "\"" + MarksText(m.key) + "\"" + m.after + ":" + rest) ==
      Result.Ok(Parsed(Spelled(m.key), rest))
  {
    hide Skip, StringBody, MarksText, Spelled, MarksOk, Blank, IsSpace;
    Punctuation();
    var tail := m.after + (":" + rest);
    var body := MarksText(m.key) + "\"" + tail;
    var s := m.before + "\"" + MarksText(m.key) + "\"" + m.after + ":" + rest;
    assert s == m.before + ("\"" + body);
    SkipsBlank(m.before, "\"" + body);
    assert ("\"" + body)[1..] == body;
    MarksRead(m.key, tail, "");
    assert "" + Spelled(m.key) == Spelled(m.key);
    SkipsBlank(m.after, ":" + rest);
    assert (":" + rest)[1..] == rest;
  }

  lemma MemberRead(s: string, key: Parsed<string>, v: Parsed<Json>, c: char, rest: string, known: map<string, Json>)
    requires Key(s) == Result.Ok(key) && Value(key.rest) == Result.Ok(v) && key.value !in known
    requires Skip(v.rest) == [c] + rest
    ensures c == '}' ==> Members(s, known) == Result.Ok(Parsed(Object(known[key.value := v.value]), rest))
    ensures c == ',' ==> Members(s, known) == Members(rest, known[key.value := v.value])
  {
    hide Skip, Key, Value;
    assert ([c] + rest)[1..] == rest;
  }

  lemma {:induction false} MembersAccept(members: seq<Member>, known: map<string, Json>, rest: string)
    requires members != [] && MembersOk(members) && DistinctKeys(members)
    requires forall m :: m in members ==> Spelled(m.key) !in known
    ensures Members(MembersText(members) + rest, known) == Result.Ok(Parsed(Object(Fields(members, known)), rest))
    decreases members, 1
  {
    hide Skip, Key, Value, Members, MarksText, SyntaxText, Spelled, MarksOk, Meaning, IsSpace, Blank, Follows,
      SyntaxOk;
    var m, s := members[0], MembersText(members) + rest;
    assert m in members;
    var last := |members| == 1;
    var c, tail := if last then '}' else ',', if last then rest else MembersText(members[1..]) + rest;
    var read := ItemText(m.value) + ([c] + tail);
    KeyAccepts(m, read);
    var head := m.before + "\"" + MarksText(m.key) + "\"" + m.after + ":";
    assert s == MemberText(m) + ([c] + tail);
    assert (head + ItemText(m.value)) + ([c] + tail) == head + read;
    AfterValue(m.value.after, c, tail);
    ValueAccepts(m.value.before, m.value.syntax, m.value.after + [c] + tail);
    assert read == m.value.before + SyntaxText(m.value.syntax) + (m.value.after + [c] + tail);
    var v := Meaning(m.value.syntax);
    MemberRead(s, Parsed(Spelled(m.key), read), Parsed(v, m.value.after + [c] + tail), c, tail, known);
    if !last {
      LaterKeys(members);
      MembersAccept(members[1..], known[Spelled(m.key) := v], rest);
    }
  }

  lemma LaterKeys(members: seq<Member>)
    requires members != [] && DistinctKeys(members)
    ensures DistinctKeys(members[1..])
    ensures forall m :: m in members[1..] ==> Spelled(m.key) != Spelled(members[0].key)
  {
    hide Spelled;
  }

  lemma ElementRead(s: string, v: Parsed<Json>, c: char, rest: string, known: seq<Json>)
    requires Value(s) == Result.Ok(v) && Skip(v.rest) == [c] + rest
    ensures c == ']' ==> JsonTree.Elements(s, known) == Result.Ok(Parsed(Array(known + [v.value]), rest))
    ensures c == ',' ==> JsonTree.Elements(s, known) == JsonTree.Elements(rest, known + [v.value])
  {
    hide Skip, Value;
    assert ([c] + rest)[1..] == rest;
  }

  lemma Associate<T>(a: seq<T>, b: seq<T>, c: seq<T>)
    ensures a + b + c == a + (b + c)
  {
  }

  lemma ElementsSplit(items: seq<Item>, c: char, tail: string, rest: string)
    requires items != [] && c == (if |items| == 1 then ']' else ',')
    requires tail == if |items| == 1 then rest else ElementsText(items[1..]) + rest
    ensures ElementsText(items) + rest ==
      items[0].before + SyntaxText(items[0].syntax) + (items[0].after + [c] + tail)
  {
    hide SyntaxText;
    var i := items[0];
    var text := i.before + SyntaxText(i.syntax);
    if |items| == 1 {
      Associate(ItemText(i), [c], rest);
    } else {
      Associate(ItemText(i), [c] + ElementsText(items[1..]), rest);
      Associate([c], ElementsText(items[1..]), rest);
    }
    Associate(text, i.after, [c] + tail);
    Associate(i.after, [c], tail);
  }

  lemma MeaningsSplit(items: seq<Item>, known: seq<Json>)
    requires items != []
    ensures known + Meanings(items) == known + [Meaning(items[0].syntax)] + Meanings(items[1..])
    ensures |items| == 1 ==> Meanings(items[1..]) == []
  {
    hide Meaning;
    Associate(known, [Meaning(items[0].syntax)], Meanings(items[1..]));
  }

  lemma NothingMore(known: seq<Json>)
    ensures known + [] == known
  {
  }

  lemma {:induction false} ElementsAccept(items: seq<Item>, known: seq<Json>, rest: string)
    requires items != [] && ItemsOk(items)
    ensures JsonTree.Elements(ElementsText(items) + rest, known) ==
      Result.Ok(Parsed(Array(known + Meanings(items)), rest))
    decreases items, 1
  {
    hide Skip, Value, JsonTree.Elements, SyntaxText, Meaning, Meanings, IsSpace, Blank, Follows, SyntaxOk;
    var i, s := items[0], ElementsText(items) + rest;
    assert i in items;
    var last := |items| == 1;
    var c, tail := if last then ']' else ',', if last then rest else ElementsText(items[1..]) + rest;
    AfterValue(i.after, c, tail);
    ValueAccepts(i.before, i.syntax, i.after + [c] + tail);
    ElementsSplit(items, c, tail, rest);
    ElementRead(s, Parsed(Meaning(i.syntax), i.after + [c] + tail), c, tail, known);
    MeaningsSplit(items, known);
    NothingMore(known + [Meaning(i.syntax)]);
    if !last {
      ElementsAccept(items[1..], known + [Meaning(i.syntax)], rest);
    }
  }

  // ---------------------------------------------------------------- nothing else is accepted

  lemma {:induction false} BlankFound(s: string) returns (blank: string)
    ensures Blank(blank) && s == blank + Skip(s)
  {
    if s != "" && IsSpace(s[0]) {
      var more := BlankFound(s[1..]);
      blank := [s[0]] + more;
      assert s == [s[0]] + s[1..];
    } else {
      blank := "";
    }
  }

  lemma MarkFound(s: string, text: string) returns (m: Mark)
    requires StringBody(s, text).Ok? && s[0] != '"'
    ensures MarkOk(m) && MarkText(m) <= s
    ensures StringBody(s, text) == StringBody(s[|MarkText(m)|..], text + [MarkMeans(m)])
  {
    m := if s[0] == '\\' then Escaped(s[1]) else Plain(s[0]);
    assert s == MarkText(m) + s[|MarkText(m)|..];
    OneMark(m, s[|MarkText(m)|..], text);
  }

  lemma {:induction false} MarksFound(s: string, text: string) returns (marks: seq<Mark>)
    requires StringBody(s, text).Ok?
    ensures MarksOk(marks)
    ensures var r := StringBody(s, text).value;
      s == MarksText(marks) + "\"" + r.rest && r.value == text + Spelled(marks)
    decreases |s|
  {
    hide MarkOk, MarkMeans;
    StringNonempty(s, text);
    if s[0] == '"' {
      marks := [];
      StringEnds(s[1..], text);
      assert s == "\"" + s[1..];
    } else {
      hide StringBody;
      hide MarkText, MarksText, Spelled;
      var m := MarkFound(s, text);
      var tail := s[|MarkText(m)|..];
      var more := MarksFound(tail, text + [MarkMeans(m)]);
      marks := [m] + more;
      OneMarkMore(m, more, text);
      Regroup(MarkText(m), MarksText(more), "\"", StringBody(tail, text + [MarkMeans(m)]).value.rest);
    }
  }

  lemma Regroup(a: string, b: string, c: string, d: string)
    ensures a + (b + c + d) == a + b + c + d
  {
  }

  lemma OneMarkMore(m: Mark, more: seq<Mark>, text: string)
    ensures MarksText([m] + more) == MarkText(m) + MarksText(more)
    ensures text + Spelled([m] + more) == text + [MarkMeans(m)] + Spelled(more)
  {
    hide MarkText, MarkMeans;
    assert ([m] + more)[1..] == more;
  }

  lemma StringNonempty(s: string, text: string)
    requires StringBody(s, text).Ok?
    ensures s != ""
  {
  }

  lemma {:induction false} DigitsFound(s: string)
    ensures forall c :: c in s[..DigitCount(s)] ==> '0' <= c <= '9'
  {
    if s != "" && IsDigit(s[0]) {
      DigitsFound(s[1..]);
      assert s[..DigitCount(s)] == [s[0]] + s[1..][..DigitCount(s[1..])];
    }
  }

  lemma WithDigitsFound(s: string, before: nat)
    requires before <= |s| && WithDigits(s, before).Ok?
    ensures Digits(s[before..WithDigits(s, before).value])
  {
    DigitsFound(s[before..]);
    assert s[before..WithDigits(s, before).value] == s[before..][..DigitCount(s[before..])];
  }

  lemma FractionFound(s: string, at: nat) returns (fraction: Option<string>)
    requires at <= |s| && FractionEnd(s, at).Ok?
    ensures fraction.Some? ==> Digits(fraction.value)
    ensures s[at..FractionEnd(s, at).value] == FractionText(fraction)
  {
    hide WithDigits;
    if at < |s| && s[at] == '.' {
      WithDigitsFound(s, at + 1);
      fraction := Some(s[at + 1..FractionEnd(s, at).value]);
    } else {
      fraction := None;
    }
  }

  lemma SignFound(s: string, at: nat) returns (sign: string)
    requires at <= |s|
    ensures sign == s[at..at + SignLength(s, at)] && (sign == "" || sign == "+" || sign == "-")
  {
    sign := s[at..at + SignLength(s, at)];
    assert sign != "" ==> sign == [s[at]];
  }

  lemma ExponentFound(s: string, at: nat) returns (exponent: Option<Exponent>)
    requires at <= |s| && ExponentEnd(s, at).Ok?
    ensures NumeralOk(Numeral(false, "0", None, exponent))
    ensures s[at..ExponentEnd(s, at).value] == ExponentText(exponent)
  {
    hide WithDigits;
    ZeroIsDigits();
    if at < |s| && (s[at] == 'e' || s[at] == 'E') {
      var digits, end := at + 1 + SignLength(s, at + 1), ExponentEnd(s, at).value;
      WithDigitsFound(s, digits);
      var sign := SignFound(s, at + 1);
      exponent := Some(Exponent(s[at], sign, s[digits..end]));
      assert s[at..end] == [s[at]] + s[at + 1..digits] + s[digits..end];
    } else {
      exponent := None;
    }
  }

  lemma NumeralFound(s: string) returns (n: Numeral)
    requires s != "" && NumberEnd(s).Ok?
    ensures NumeralOk(n) && s[..NumberEnd(s).value] == NumeralText(n)
  {
    hide WithDigits, FractionEnd, ExponentEnd, FractionText, ExponentText, Digits;
    var sign := if s[0] == '-' then 1 else 0;
    WithDigitsFound(s, sign);
    var whole := WithDigits(s, sign).value;
    var fraction := FractionFound(s, whole);
    var after := FractionEnd(s, whole).value;
    var exponent := ExponentFound(s, after);
    n := Numeral(s[0] == '-', s[sign..whole], fraction, exponent);
    assert s[..NumberEnd(s).value] == s[..sign] + s[sign..whole] + s[whole..after] + s[after..NumberEnd(s).value];
  }

  lemma ScalarFound(s: string) returns (x: Syntax)
    requires s != "" && Scalar(s).Ok?
    ensures SyntaxOk(x) && s == SyntaxText(x) + Scalar(s).value.rest && Meaning(x) == Scalar(s).value.value
  {
    hide StringBody, NumberEnd, MarksText, NumeralText, Spelled, NumeralOk, MarksOk;
    if s[0] == '"' {
      var marks := MarksFound(s[1..], "");
      x := Quoted(marks);
      assert s == "\"" + s[1..];
      assert "" + Spelled(marks) == Spelled(marks);
    } else if s[0] == '-' || IsDigit(s[0]) {
      var n := NumeralFound(s);
      x := Numeric(n);
    } else {
      x := Word(if StartsWith(s, "true") then "true" else if StartsWith(s, "false") then "false" else "null");
    }
  }

  lemma {:induction false} ValueFound(s: string) returns (before: string, x: Syntax)
    requires Value(s).Ok?
    ensures Blank(before) && SyntaxOk(x)
    ensures s == before + SyntaxText(x) + Value(s).value.rest && Meaning(x) == Value(s).value.value
    decreases |s|, 1
  {
    hide Value, Skip, Members, JsonTree.Elements, Scalar, MembersText, ElementsText, IsSpace, Blank, MembersOk,
      ItemsOk, Fields, Meanings, DistinctKeys;
    before := BlankFound(s);
    var t := Skip(s);
    ValueNonempty(s);
    Opens(s, t);
    if t[0] == '{' || t[0] == '[' {
      x := ContainerFound(s, t);
    } else {
      x := ScalarFound(t);
    }
    assert s == before + (SyntaxText(x) + Value(s).value.rest);
  }

  lemma ValueNonempty(s: string)
    requires Value(s).Ok?
    ensures Skip(s) != ""
  {
    hide Skip, Members, JsonTree.Elements, Scalar;
  }

  lemma {:induction false} ContainerFound(s: string, t: string) returns (x: Syntax)
    requires t == Skip(s) && t != "" && (t[0] == '{' || t[0] == '[') && Value(s).Ok?
    ensures SyntaxOk(x) && t == SyntaxText(x) + Value(s).value.rest && Meaning(x) == Value(s).value.value
    decreases |s|, 0
  {
    hide Value, Skip, Members, JsonTree.Elements, Scalar, MembersText, ElementsText, IsSpace, Blank, MembersOk,
      ItemsOk, Fields, Meanings, DistinctKeys;
    Opens(s, t);
    NoFields();
    NothingInside();
    var blank := BlankFound(t[1..]);
    assert t == [t[0]] + t[1..];
    if t[0] == '{' {
      if Begins(Skip(t[1..]), '}') {
        x := Braces(blank, []);
        assert t[1..] == blank + ("}" + Skip(t[1..])[1..]);
      } else {
        var members := MembersFound(t[1..], map[]);
        x := Braces("", members);
      }
    } else if Begins(Skip(t[1..]), ']') {
      x := Brackets(blank, []);
      assert t[1..] == blank + ("]" + Skip(t[1..])[1..]);
    } else {
      var items := ElementsFound(t[1..], []);
      assert [] + Meanings(items) == Meanings(items);
      x := Brackets("", items);
    }
  }

  lemma NothingInside()
    ensures Blank("") && MembersOk([]) && ItemsOk([]) && DistinctKeys([])
  {
  }

  /** What a successful reading of members has read first. */
  lemma MemberParts(s: string, known: map<string, Json>)
    requires Members(s, known).Ok?
    ensures Key(s).Ok? && Value(Key(s).value.rest).Ok? && Key(s).value.value !in known
    ensures
      var v, more := Value(Key(s).value.rest).value, known[Key(s).value.value := Value(Key(s).value.rest).value.value];
      var tail := Skip(v.rest);
      tail != "" && (tail[0] == '}' || tail[0] == ',') &&
      Members(s, known) ==
        if tail[0] == '}' then Result.Ok(Parsed(Object(more), tail[1..])) else Members(tail[1..], more)
  {
    hide Skip, Key, Value;
  }

  lemma KeyFound(s: string) returns (before: string, marks: seq<Mark>, after: string)
    requires Key(s).Ok?
    ensures Blank(before) && MarksOk(marks) && Blank(after) && Spelled(marks) == Key(s).value.value
    ensures s == before + "\"" + MarksText(marks) + "\"" + after + ":" + Key(s).value.rest
  {
    hide Skip, StringBody, MarksText, Spelled, MarksOk, Blank, IsSpace;
    before := BlankFound(s);
    var t := Skip(s);
    assert t == "\"" + t[1..];
    marks := MarksFound(t[1..], "");
    assert "" + Spelled(marks) == Spelled(marks);
    var rest := StringBody(t[1..], "").value.rest;
    after := BlankFound(rest);
    assert Skip(rest) == ":" + Key(s).value.rest;
    assert s == before + ("\"" + (MarksText(marks) + "\"" + (after + (":" + Key(s).value.rest))));
  }

  lemma {:induction false} MemberFound(s: string, known: map<string, Json>) returns (m: Member)
    requires Members(s, known).Ok? && Key(s).Ok? && Value(Key(s).value.rest).Ok?
    ensures MembersOk([m]) && Spelled(m.key) == Key(s).value.value
    ensures Meaning(m.value.syntax) == Value(Key(s).value.rest).value.value
    ensures s == MemberText(m) + Skip(Value(Key(s).value.rest).value.rest)
    decreases |s|, 0, 0
  {
    hide Skip, Key, Value, Members, MarksText, SyntaxText, Spelled, MarksOk, Meaning, IsSpace, Blank, SyntaxOk;
    var key := Key(s).value;
    var v := Value(key.rest).value;
    var before, marks, after := KeyFound(s);
    var lead, x := ValueFound(key.rest);
    var trail := BlankFound(v.rest);
    m := Member(before, marks, after, Item(lead, x, trail));
    assert key.rest == ItemText(m.value) + Skip(v.rest);
    assert s == before + "\"" + MarksText(marks) + "\"" + after + ":" + (ItemText(m.value) + Skip(v.rest));
  }

  lemma {:induction false} MembersFound(s: string, known: map<string, Json>) returns (members: seq<Member>)
    requires Members(s, known).Ok?
    ensures members != [] && MembersOk(members) && DistinctKeys(members)
    ensures forall m :: m in members ==> Spelled(m.key) !in known
    ensures s == MembersText(members) + Members(s, known).value.rest
    ensures Members(s, known).value.value == Object(Fields(members, known))
    decreases |s|, 0, 1
  {
    hide Skip, Key, Value, Members, MemberText, Spelled, Meaning, DistinctKeys, Fields, MarksOk, Blank, ItemOk;
    MemberParts(s, known);
    var v := Value(Key(s).value.rest).value;
    var m := MemberFound(s, known);
    var tail := Skip(v.rest);
    assert tail == [tail[0]] + tail[1..];
    if tail[0] == '}' {
      members := [m];
      OneField(m, known);
      NothingInside();
      KeysStayDistinct(m, []);
      assert [m] + [] == [m];
    } else {
      var more := MembersFound(tail[1..], known[Key(s).value.value := v.value]);
      members := [m] + more;
      MoreFields(m, more, known);
      KeysStayDistinct(m, more);
      assert m in [m];
    }
  }

  lemma OneField(m: Member, known: map<string, Json>)
    ensures Fields([m], known) == known[Spelled(m.key) := Meaning(m.value.syntax)]
  {
    assert [m][1..] == [];
  }

  lemma MoreFields(m: Member, more: seq<Member>, known: map<string, Json>)
    ensures Fields([m] + more, known) == Fields(more, known[Spelled(m.key) := Meaning(m.value.syntax)])
    ensures more != [] ==> ([m] + more)[1..] == more
  {
    assert ([m] + more)[1..] == more;
  }

  lemma KeysStayDistinct(m: Member, more: seq<Member>)
    requires DistinctKeys(more) && forall other :: other in more ==> Spelled(other.key) != Spelled(m.key)
    ensures DistinctKeys([m] + more)
  {
    hide Spelled;
  }

  lemma {:induction false} ElementsFound(s: string, known: seq<Json>) returns (items: seq<Item>)
    requires JsonTree.Elements(s, known).Ok?
    ensures items != [] && ItemsOk(items)
    ensures s == ElementsText(items) + JsonTree.Elements(s, known).value.rest
    ensures JsonTree.Elements(s, known).value.value == Array(known + Meanings(items))
    decreases |s|, 2
  {
    hide Skip, Value, SyntaxText, Meaning, IsSpace, Blank, SyntaxOk;
    var v := Value(s).value;
    var before, x := ValueFound(s);
    var after := BlankFound(v.rest);
    var i := Item(before, x, after);
    var tail := Skip(v.rest);
    assert tail == [tail[0]] + tail[1..];
    if tail[0] == ']' {
      items := [i];
      assert items[1..] == [];
    } else {
      var more := ElementsFound(tail[1..], known + [v.value]);
      items := [i] + more;
      assert items[1..] == more;
      assert known + [v.value] + Meanings(more) == known + Meanings(items);
    }
    assert s == ItemText(i) + tail;
  }

  // ---------------------------------------------------------------- documents

  /** The text of a document: a value between white space. */
  ghost predicate IsText(document: string, value: Item) {
    ItemOk(value) && document == ItemText(value)
  }

  /** An object describes a node: it has a type, and the node's children as a list, or its only child,
      or neither field if it has none. */
  ghost predicate Describes(v: Json, n: Node)
    decreases n
  {
    && v.Object? && "type" in v.members && v.members["type"] == Text(n.kind) && n.kind != ""
    && ("child" in v.members ==>
          && "children" !in v.members && |n.children| == 1 && Describes(v.members["child"], n.children[0]))
    && ("children" in v.members ==>
          && v.members["children"].Array? && |v.members["children"].items| == |n.children|
          && forall i :: 0 <= i < |n.children| ==> Describes(v.members["children"].items[i], n.children[i]))
    && ("child" !in v.members && "children" !in v.members ==> n.children == [])
  }

  ghost predicate AllDescribe(items: seq<Json>, ns: seq<Node>) {
    |items| == |ns| && forall i :: 0 <= i < |ns| ==> Describes(items[i], ns[i])
  }

  lemma {:induction false} NodeDescribed(v: Json, n: Node)
    ensures NodeFromJson(v) == Result.Ok(n) <==> Describes(v, n)
    decreases v, 0
  {
    if v.Object? && "child" in v.members && "children" !in v.members {
      var child := NodeFromJson(v.members["child"]);
      if child.Ok? {
        NodeDescribed(v.members["child"], child.value);
      }
      if |n.children| == 1 {
        NodeDescribed(v.members["child"], n.children[0]);
        assert n.children == [n.children[0]];
      }
    } else if v.Object? && "children" in v.members && v.members["children"].Array? {
      var items := v.members["children"].items;
      NodesDescribed(items, n.children);
      assert AllDescribe(items, n.children) <==>
        |items| == |n.children| && forall i :: 0 <= i < |n.children| ==> Describes(items[i], n.children[i]);
    }
  }

  lemma {:induction false} NodesDescribed(items: seq<Json>, ns: seq<Node>)
    ensures NodesFromJson(items) == Result.Ok(ns) <==> AllDescribe(items, ns)
    decreases items, 1
  {
    hide NodeFromJson, Describes;
    if items != [] && ns != [] {
      NodeDescribed(items[0], ns[0]);
      NodesDescribed(items[1..], ns[1..]);
      assert ns == [ns[0]] + ns[1..];
      assert AllDescribe(items, ns) <==> Describes(items[0], ns[0]) && AllDescribe(items[1..], ns[1..]) by {
        if Describes(items[0], ns[0]) && AllDescribe(items[1..], ns[1..]) {
          forall i | 0 <= i < |ns|
            ensures Describes(items[i], ns[i])
          {
            assert i > 0 ==> items[i] == items[1..][i - 1] && ns[i] == ns[1..][i - 1];
          }
        }
      }
    }
  }

  /** The document says that the tree has this root. */
  ghost predicate DescribesTree(v: Json, root: Node) {
    v.Object? && "root" in v.members && Describes(v.members["root"], root)
  }

  lemma TextAccepted(value: Item)
    requires ItemOk(value)
    ensures Value(ItemText(value)) == Result.Ok(Parsed(Meaning(value.syntax), value.after)) && Skip(value.after) == ""
  {
    hide Value, SyntaxText, Meaning;
    assert value.after != "" ==> value.after[0] in value.after;
    ValueAccepts(value.before, value.syntax, value.after);
    assert value.after + "" == value.after;
    SkipsBlank(value.after, "");
  }

  lemma TextFound(document: string) returns (value: Item)
    requires Value(document).Ok? && Skip(Value(document).value.rest) == ""
    ensures IsText(document, value) && Meaning(value.syntax) == Value(document).value.value
  {
    hide Value, SyntaxText, Meaning, Skip;
    var before, x := ValueFound(document);
    var after := BlankFound(Value(document).value.rest);
    assert after + "" == after;
    value := Item(before, x, after);
  }

  /** The parser returns a tree if and only if the document is the text of a value that describes it:
      any white space, any escapes, fields in any order and among others, each node's children in
      either field. */
  lemma ParsesExactly(document: string, root: Node)
    ensures Parse(document) == Result.Ok(root) <==>
      exists value :: IsText(document, value) && DescribesTree(Meaning(value.syntax), root)
  {
    hide Value, ItemText, Meaning, Describes, Skip, NodeFromJson, ItemOk;
    if Parse(document) == Result.Ok(root) {
      var value := TextFound(document);
      NodeDescribed(Meaning(value.syntax).members["root"], root);
    }
    forall value | IsText(document, value) && DescribesTree(Meaning(value.syntax), root)
      ensures Parse(document) == Result.Ok(root)
    {
      TextAccepted(value);
      NodeDescribed(Meaning(value.syntax).members["root"], root);
    }
  }

  /** A value is among the nodes that another one describes: itself, or reached through its fields. */
  ghost predicate Reaches(v: Json, inner: Json)
    decreases v
  {
    || v == inner
    || (v.Object? && "child" in v.members && Reaches(v.members["child"], inner))
    || (v.Object? && "children" in v.members && v.members["children"].Array? &&
        exists i :: 0 <= i < |v.members["children"].items| && Reaches(v.members["children"].items[i], inner))
  }

  lemma {:induction false} ReachedIsDescribed(v: Json, n: Node, inner: Json) returns (m: Node)
    requires Describes(v, n) && Reaches(v, inner)
    ensures Describes(inner, m)
    decreases v
  {
    if v == inner {
      m := n;
    } else if "child" in v.members {
      m := ReachedIsDescribed(v.members["child"], n.children[0], inner);
    } else {
      var i :| 0 <= i < |v.members["children"].items| && Reaches(v.members["children"].items[i], inner);
      m := ReachedIsDescribed(v.members["children"].items[i], n.children[i], inner);
    }
  }

  /** A document in which some node, however deep, has both fields is refused. */
  lemma BothFieldsRefused(document: string, value: Item, bad: Json)
    requires IsText(document, value)
    requires var v := Meaning(value.syntax); v.Object? && "root" in v.members && Reaches(v.members["root"], bad)
    requires bad.Object? && "child" in bad.members && "children" in bad.members
    ensures Parse(document) == Err
  {
    hide Value, ItemText, Meaning, Skip, NodeFromJson, ItemOk, Reaches;
    var v := Meaning(value.syntax);
    TextAccepted(value);
    if Parse(document).Ok? {
      var root := Parse(document).value;
      NodeDescribed(v.members["root"], root);
      var m := ReachedIsDescribed(v.members["root"], root, bad);
      assert false;
    }
  }

  /** An object's meaning has each key once, as it is spelled, with the meaning of its value. */
  lemma {:induction false} FieldsAre(members: seq<Member>, known: map<string, Json>)
    requires DistinctKeys(members) && forall m :: m in members ==> Spelled(m.key) !in known
    ensures forall m :: m in members ==>
      Spelled(m.key) in Fields(members, known) && Fields(members, known)[Spelled(m.key)] == Meaning(m.value.syntax)
    ensures forall key :: key in known ==> key in Fields(members, known) && Fields(members, known)[key] == known[key]
    ensures forall key :: key in Fields(members, known) ==>
      key in known || exists m :: m in members && Spelled(m.key) == key
  {
    hide Spelled, Meaning, DistinctKeys;
    if members != [] {
      LaterKeys(members);
      FieldsAre(members[1..], known[Spelled(members[0].key) := Meaning(members[0].value.syntax)]);
    }
  }
}
