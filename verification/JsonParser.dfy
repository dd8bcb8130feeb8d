/** The parser object: a document and a position that every operation advances. */
module JsonParser {
  import opened TreeText
  import opened JsonTree

  /** A result of the parser and the text its position leaves, as the grammar gives them. */
  function Outcome<T>(r: Result<T>, rest: string): Result<Parsed<T>> {
    match r
    case Ok(value) => Ok(Parsed(value, rest))
    case Err => Err
  }

  lemma SkipTwice(s: string)
    ensures Skip(Skip(s)) == Skip(s)
  {
  }

  lemma ObjectStarts(s: string)
    requires s != "" && s[0] == '{'
    ensures Value(s) ==
      if Begins(Skip(s[1..]), '}') then Ok(Parsed(Object(map[]), Skip(s[1..])[1..])) else Members(Skip(s[1..]), map[])
  {
    hide Members, StringBody, Elements, Scalar, Key;
    SkipTwice(s[1..]);
    KeySkips(s[1..]);
    MembersSkip(s[1..]);
  }

  lemma KeySkips(s: string)
    ensures Key(Skip(s)) == Key(s)
  {
    hide StringBody;
    SkipTwice(s);
  }

  lemma MembersSkip(s: string)
    ensures Members(Skip(s), map[]) == Members(s, map[])
  {
    hide Skip, Key, Value, Begins;
    KeySkips(s);
  }

  lemma ValueSkips(s: string)
    ensures Value(Skip(s)) == Value(s)
  {
    hide Members, Elements, Scalar;
    SkipTwice(s);
  }

  lemma ElementsSkip(s: string)
    ensures Elements(Skip(s), []) == Elements(s, [])
  {
    hide Skip, Value, Begins;
    ValueSkips(s);
  }

  lemma ArrayStarts(s: string)
    requires s != "" && s[0] == '['
    ensures Value(s) ==
      if Begins(Skip(s[1..]), ']') then Ok(Parsed(Array([]), Skip(s[1..])[1..])) else Elements(Skip(s[1..]), [])
  {
    hide Members, Elements, Scalar;
    ElementsSkip(s[1..]);
  }

  class JsonParser {
    const document: string
    var position: nat

    ghost predicate Valid()
      reads this
    {
      position <= |document|
    }

    function Rest(): string
      requires Valid()
      reads this
    {
      document[position..]
    }

    constructor (document: string)
      ensures Valid() && this.document == document && position == 0 && Rest() == document
    {
      this.document, position := document, 0;
    }

    method SkipWhitespace()
      requires Valid()
      modifies this
      ensures Valid() && position >= old(position)
      ensures Rest() == Skip(old(Rest()))
    {
      while position < |document| && IsSpace(document[position])
        invariant old(position) <= position <= |document|
        invariant Skip(old(Rest())) == Skip(Rest())
      {
        assert Rest()[1..] == document[position + 1..];
        position := position + 1;
      }
    }

    method TryConsume(expected: char) returns (consumed: bool)
      requires Valid()
      modifies this
      ensures Valid() && position >= old(position) + (if consumed then 1 else 0)
      ensures consumed == Begins(Skip(old(Rest())), expected)
      ensures Rest() == if consumed then Skip(old(Rest()))[1..] else Skip(old(Rest()))
    {
      hide Skip;
      SkipWhitespace();
      consumed := position < |document| && document[position] == expected;
      if consumed {
        assert Rest()[1..] == document[position + 1..];
        position := position + 1;
      }
    }

    /** The digits at the position; none are an error. */
    method ConsumeDigits(ghost begin: nat) returns (ok: bool)
      requires Valid() && begin <= position
      modifies this
      ensures Valid() && position >= old(position)
      ensures WithDigits(document[begin..], old(position) - begin) == if ok then Ok(position - begin) else Err
    {
      var first := position;
      while position < |document| && IsDigit(document[position])
        invariant first <= position <= |document|
        invariant DigitCount(document[first..]) == position - first + DigitCount(Rest())
      {
        assert Rest()[1..] == document[position + 1..];
        position := position + 1;
      }
      ok := position != first;
      assert document[begin..][first - begin..] == document[first..];
    }

    method ConsumeFraction(ghost begin: nat) returns (ok: bool)
      requires Valid() && begin <= position
      modifies this
      ensures Valid() && position >= old(position)
      ensures FractionEnd(document[begin..], old(position) - begin) == if ok then Ok(position - begin) else Err
    {
      hide WithDigits;
      ok := true;
      if position < |document| && document[position] == '.' {
        position := position + 1;
        ok := ConsumeDigits(begin);
      }
    }

    method ConsumeExponent(ghost begin: nat) returns (ok: bool)
      requires Valid() && begin <= position
      modifies this
      ensures Valid() && position >= old(position)
      ensures ExponentEnd(document[begin..], old(position) - begin) == if ok then Ok(position - begin) else Err
    {
      hide WithDigits;
      ok := true;
      if position < |document| && (document[position] == 'e' || document[position] == 'E') {
        position := position + 1;
        if position < |document| && (document[position] == '+' || document[position] == '-') {
          position := position + 1;
        }
        ok := ConsumeDigits(begin);
      }
    }

    /** The text of a number. */
    method ParseNumber() returns (r: Result<string>)
      requires Valid() && position < |document|
      modifies this
      ensures Valid() && position >= old(position)
      ensures match NumberEnd(old(Rest()))
              case Ok(end) => r == Ok(old(Rest())[..end]) && Rest() == old(Rest())[end..]
              case Err => r == Err
    {
      hide WithDigits, FractionEnd, ExponentEnd;
      var begin := position;
      if document[position] == '-' {
        position := position + 1;
      }
      var ok := ConsumeDigits(begin);
      if ok {
        ok := ConsumeFraction(begin);
      }
      if ok {
        ok := ConsumeExponent(begin);
      }
      if !ok {
        return Err;
      }
      assert document[begin..][position - begin..] == document[position..];
      assert document[begin..][..position - begin] == document[begin..position];
      r := Ok(document[begin..position]);
    }

    method ParseString() returns (r: Result<string>)
      requires Valid() && position < |document| && document[position] == '"'
      modifies this
      ensures Valid() && position > old(position)
      ensures Outcome(r, Rest()) == StringBody(old(Rest())[1..], "")
    {
      hide Unescape;
      ghost var body := Rest()[1..];
      position := position + 1;
      var text := "";
      while position < |document|
        invariant old(position) < position <= |document|
        invariant StringBody(body, "") == StringBody(Rest(), text)
      {
        assert Rest()[1..] == document[position + 1..];
        var current := document[position];
        position := position + 1;
        if current == '"' {
          return Ok(text);
        }
        if current < ' ' {
          return Err;
        }
        if current != '\\' {
          text := text + [current];
          continue;
        }
        if position >= |document| {
          return Err;
        }
        assert document[position - 1..][2..] == document[position + 1..];
        var escaped := Unescape(document[position]);
        position := position + 1;
        if escaped.Err? {
          return Err;
        }
        text := text + [escaped.value];
      }
      return Err;
    }

    method ConsumeLiteral(literal: string) returns (consumed: bool)
      requires Valid()
      modifies this
      ensures Valid() && position >= old(position)
      ensures consumed == StartsWith(old(Rest()), literal)
      ensures Rest() == if consumed then old(Rest())[|literal|..] else old(Rest())
    {
      consumed := StartsWith(document[position..], literal);
      if consumed {
        assert document[position..][|literal|..] == document[position + |literal|..];
        position := position + |literal|;
      }
    }

    method ParseScalar() returns (r: Result<Json>)
      requires Valid() && position < |document|
      modifies this
      ensures Valid() && position >= old(position)
      ensures Outcome(r, Rest()) == Scalar(old(Rest()))
    {
      hide NumberEnd, StringBody, StartsWith, IsDigit;
      var current := document[position];
      if current == '"' {
        var text := ParseString();
        return if text.Ok? then Ok(Text(text.value)) else Err;
      }
      if current == '-' || IsDigit(current) {
        var number := ParseNumber();
        return if number.Ok? then Ok(Number(number.value)) else Err;
      }
      var consumed := ConsumeLiteral("true");
      if consumed {
        return Ok(Bool(true));
      }
      consumed := ConsumeLiteral("false");
      if consumed {
        return Ok(Bool(false));
      }
      consumed := ConsumeLiteral("null");
      return if consumed then Ok(Null) else Err;
    }

    method ParseValue() returns (r: Result<Json>)
      requires Valid()
      modifies this
      ensures Valid() && position >= old(position) && (r.Ok? ==> position > old(position))
      ensures Outcome(r, Rest()) == Value(old(Rest()))
      decreases |document| - position, 1
    {
      hide Skip, Members, Elements, Scalar;
      ValueSkips(Rest());
      SkipWhitespace();
      if position >= |document| {
        return Err;
      }
      if document[position] == '{' {
        r := ParseObject();
      } else if document[position] == '[' {
        r := ParseArray();
      } else {
        r := ParseScalar();
      }
    }

    method ParseKey() returns (r: Result<string>)
      requires Valid()
      modifies this
      ensures Valid() && position >= old(position) && (r.Ok? ==> position > old(position))
      ensures Outcome(r, Rest()) == Key(old(Rest()))
    {
      hide Skip, StringBody;
      SkipWhitespace();
      if position >= |document| || document[position] != '"' {
        return Err;
      }
      r := ParseString();
      if r.Ok? {
        var colon := TryConsume(':');
        r := if colon then r else Err;
      }
    }

    method ParseObject() returns (r: Result<Json>)
      requires Valid() && position < |document| && document[position] == '{'
      modifies this
      ensures Valid() && position > old(position)
      ensures Outcome(r, Rest()) == Value(old(Rest()))
      decreases |document| - position, 0
    {
      hide Skip, Key, Begins;
      ghost var s := Rest();
      ObjectStarts(s);
      position := position + 1;
      assert Rest() == s[1..];
      var closed := TryConsume('}');
      if closed {
        return Ok(Object(map[]));
      }
      var members: map<string, Json> := map[];
      while true
        invariant old(position) < position <= |document|
        invariant Value(s) == Members(Rest(), members)
        decreases |document| - position
      {
        var key := ParseKey();
        if key.Err? {
          return Err;
        }
        var value := ParseValue();
        if value.Err? || key.value in members {
          return Err;
        }
        members := members[key.value := value.value];
        SkipTwice(Rest());
        closed := TryConsume('}');
        if closed {
          return Ok(Object(members));
        }
        var comma := TryConsume(',');
        if !comma {
          return Err;
        }
      }
    }

    method ParseArray() returns (r: Result<Json>)
      requires Valid() && position < |document| && document[position] == '['
      modifies this
      ensures Valid() && position > old(position)
      ensures Outcome(r, Rest()) == Value(old(Rest()))
      decreases |document| - position, 0
    {
      hide Skip, Begins;
      ghost var s := Rest();
      ArrayStarts(s);
      position := position + 1;
      assert Rest() == s[1..];
      var closed := TryConsume(']');
      if closed {
        return Ok(Array([]));
      }
      var items: seq<Json> := [];
      while true
        invariant old(position) < position <= |document|
        invariant Value(s) == Elements(Rest(), items)
        decreases |document| - position
      {
        var value := ParseValue();
        if value.Err? {
          return Err;
        }
        items := items + [value.value];
        SkipTwice(Rest());
        closed := TryConsume(']');
        if closed {
          return Ok(Array(items));
        }
        var comma := TryConsume(',');
        if !comma {
          return Err;
        }
      }
    }
  }

  /** Reads a whole document. */
  method ParseJson(document: string) returns (r: Result<Node>)
    ensures r == Parse(document)
  {
    hide Value, Skip, DocumentFromJson;
    var parser := new JsonParser(document);
    var value := parser.ParseValue();
    if value.Err? {
      return Err;
    }
    parser.SkipWhitespace();
    if parser.position != |document| {
      return Err;
    }
    r := DocumentFromJson(value.value);
  }
}
