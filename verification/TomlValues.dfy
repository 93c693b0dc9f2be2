/** The values `configure.py` writes, lists included, against a reader of the part of TOML they are
    written in: booleans, numbers, literal strings and arrays. */
module TomlValues {
  import opened Basics
  import opened TomlText

  datatype Parsed = Parsed(value: Value, rest: string)

  predicate EndsToken(c: char) { c == ',' || c == ']' }

  /** A token that is neither a string nor an array: a boolean, or else a number, kept as its text. */
  function Bare(token: string): Option<Value> {
    if token == "" || '\'' in token || '[' in token then None
    else if token == "true" then Some(Bool(true))
    else if token == "false" then Some(Bool(false))
    else Some(Str(token))
  }

  /** One value, and what comes after it. */
  function ReadItem(s: string): Option<Parsed>
    decreases |s|, 0
  {
    if s == "" then None
    else if s[0] == '\'' then
      var k := IndexOf(s[1..], '\'');
      if k == |s[1..]| then None else Some(Parsed(Str(s[1..][..k]), s[1..][k + 1..]))
    else if s[0] == '[' then
      if "]" <= s[1..] then Some(Parsed(List([]), s[2..])) else ReadArray(s[1..])
    else
      var k := FirstWhere(s, EndsToken);
      var value := Bare(s[..k]);
      if value.None? then None else Some(Parsed(value.value, s[k..]))
  }

  /** The elements of an array, of which there is at least one. */
  function ReadArray(s: string): (r: Option<Parsed>)
    ensures r.Some? ==> r.value.value.List?
    decreases |s|, 1
  {
    var first := ReadItem(s);
    if first.None? then None
    else if "]" <= first.value.rest then Some(Parsed(List([first.value.value]), first.value.rest[1..]))
    else if ", " <= first.value.rest && |first.value.rest| <= |s| then
      var more := ReadArray(first.value.rest[2..]);
      if more.None? then None
      else Some(Parsed(List([first.value.value] + more.value.value.elements), more.value.rest))
    else None
  }

  /** A text that is one value. */
  function ReadToml(s: string): Option<Value> {
    var r := ReadItem(s);
    if r.Some? && r.value.rest == "" then Some(r.value.value) else None
  }

  /** No string in `v` holds a single quote. */
  predicate Plain(v: Value) {
    match v
    case Bool(_) => true
    case Str(s) => '\'' !in s
    case List(elements) => forall i :: 0 <= i < |elements| ==> Plain(elements[i])
  }

  function Texts(elements: seq<Value>, isNumber: string -> bool): seq<string> {
    seq(|elements|, i requires 0 <= i < |elements| => ToToml(elements[i], isNumber))
  }

  lemma ListText(elements: seq<Value>, isNumber: string -> bool)
    ensures ToToml(List(elements), isNumber) == "[" + Commas(Texts(elements, isNumber)) + "]"
  {
  }

  /** Where a value may end. */
  predicate Follows(rest: string) { rest == "" || EndsToken(rest[0]) }

  lemma BareReads(s: string, rest: string)
    requires s != "" && '\'' !in s && '[' !in s && ',' !in s && ']' !in s && Follows(rest)
    ensures var v := if s == "true" then Bool(true) else if s == "false" then Bool(false) else Str(s);
      ReadItem(s + rest) == Some(Parsed(v, rest))
  {
    var text := s + rest;
    assert text[0] == s[0] && s[0] in s;
    assert forall i :: 0 <= i < |s| ==> text[i] == s[i] && s[i] in s;
    assert rest != "" ==> text[|s|] == rest[0];
    assert FirstWhere(text, EndsToken) == |s| by { hide FirstWhere; }
    assert text[..|s|] == s && text[|s|..] == rest;
  }

  lemma QuotedReads(s: string, rest: string)
    requires '\'' !in s
    ensures ReadItem("'" + s + "'" + rest) == Some(Parsed(Str(s), rest))
  {
    hide IndexOf;
    var text := "'" + s + "'" + rest;
    var tail := text[1..];
    assert tail == s + "'" + rest && tail[|s|] == '\'';
    assert forall i :: 0 <= i < |s| ==> tail[i] == s[i] && s[i] in s;
    IndexIs(tail, '\'', |s|);
    assert tail[..|s|] == s && tail[|s| + 1..] == rest;
  }

  /** A value that is written is the value that is read, whatever follows it. */
  lemma {:induction false} WrittenIsRead(v: Value, isNumber: string -> bool, rest: string)
    requires FloatLike(isNumber) && Plain(v) && Follows(rest)
    ensures ReadItem(ToToml(v, isNumber) + rest) == Some(Parsed(v, rest))
    decreases v, if v.List? then |v.elements| + 1 else 0
  {
    hide ReadItem, ReadArray;
    match v
    case Bool(b) => BareReads(if b then "true" else "false", rest);
    case Str(s) =>
      if isNumber(s) {
        BareReads(s, rest);
      } else {
        QuotedReads(s, rest);
      }
    case List(elements) =>
      ListText(elements, isNumber);
      var items := Commas(Texts(elements, isNumber));
      assert "[" + items + "]" + rest == "[" + (items + "]" + rest);
      if elements == [] {
        assert items == "" && items + "]" + rest == "]" + rest;
        EmptyArrayReads(rest);
      } else {
        ItemsRead(v, elements, isNumber, rest);
        ItemsStart(elements, isNumber, rest);
        ArrayReads(items + "]" + rest);
      }
  }

  lemma EmptyArrayReads(rest: string)
    ensures ReadItem("[" + ("]" + rest)) == Some(Parsed(List([]), rest))
  {
    var text := "[" + ("]" + rest);
    assert text[1..] == "]" + rest && text[2..] == rest;
  }

  lemma ArrayReads(s: string)
    requires !("]" <= s)
    ensures ReadItem("[" + s) == ReadArray(s)
  {
    assert ("[" + s)[1..] == s;
  }

  /** A written element does not begin with a closing bracket. */
  lemma ItemsStart(elements: seq<Value>, isNumber: string -> bool, rest: string)
    requires FloatLike(isNumber) && elements != []
    ensures !("]" <= Commas(Texts(elements, isNumber)) + "]" + rest)
  {
    var first, parts := ToToml(elements[0], isNumber), Texts(elements, isNumber);
    assert first != "" && first[0] != ']' by {
      match elements[0]
      case Bool(_) =>
      case Str(s) => assert isNumber(s) ==> s[0] in s;
      case List(es) => ListText(es, isNumber);
    }
    assert parts[0] == first;
    var text := Commas(parts) + "]" + rest;
    assert text[0] == Commas(parts)[0] == first[0];
  }

  lemma {:induction false} ItemsRead(v: Value, elements: seq<Value>, isNumber: string -> bool, rest: string)
    requires FloatLike(isNumber) && v.List? && elements != []
    requires forall e :: e in elements ==> e in v.elements && Plain(e)
    ensures ReadArray(Commas(Texts(elements, isNumber)) + "]" + rest) == Some(Parsed(List(elements), rest))
    decreases v, |elements|
  {
    hide ReadItem, ReadArray, ToToml;
    var first, parts := ToToml(elements[0], isNumber), Texts(elements, isNumber);
    assert elements[0] in elements;
    if |elements| == 1 {
      WrittenIsRead(elements[0], isNumber, "]" + rest);
      assert Commas(parts) + "]" + rest == first + ("]" + rest);
      LastElement(first, elements[0], rest);
      assert elements == [elements[0]];
    } else {
      var later := elements[1..];
      var more := Commas(Texts(later, isNumber)) + "]" + rest;
      assert parts[1..] == Texts(later, isNumber);
      assert Commas(parts) + "]" + rest == first + (", " + more);
      WrittenIsRead(elements[0], isNumber, ", " + more);
      ItemsRead(v, later, isNumber, rest);
      NextElement(first, elements[0], more, later, rest);
      assert elements == [elements[0]] + later;
    }
  }

  lemma LastElement(first: string, e: Value, rest: string)
    requires ReadItem(first + ("]" + rest)) == Some(Parsed(e, "]" + rest))
    ensures ReadArray(first + ("]" + rest)) == Some(Parsed(List([e]), rest))
  {
    hide ReadItem;
    assert ("]" + rest)[1..] == rest;
  }

  lemma NextElement(first: string, e: Value, more: string, later: seq<Value>, rest: string)
    requires ReadItem(first + (", " + more)) == Some(Parsed(e, ", " + more))
    requires ReadArray(more) == Some(Parsed(List(later), rest))
    ensures ReadArray(first + (", " + more)) == Some(Parsed(List([e] + later), rest))
  {
    hide ReadItem;
    var r := ", " + more;
    assert r[0] == ',' && r[2..] == more;
  }

  /** Whatever is read, no string in it holds a single quote. */
  lemma {:induction false} ReadIsPlain(s: string)
    ensures ReadItem(s).Some? ==> Plain(ReadItem(s).value.value)
    ensures ReadArray(s).Some? ==> Plain(ReadArray(s).value.value)
    decreases |s|, 1
  {
    if s != "" && s[0] == '[' {
      ReadIsPlain(s[1..]);
    }
    ArrayIsPlain(s);
  }

  lemma {:induction false} ArrayIsPlain(s: string)
    requires ReadItem(s).Some? ==> Plain(ReadItem(s).value.value)
    ensures ReadArray(s).Some? ==> Plain(ReadArray(s).value.value)
    decreases |s|, 0
  {
    var first := ReadItem(s);
    if first.Some? && ", " <= first.value.rest && |first.value.rest| <= |s| {
      ReadIsPlain(first.value.rest[2..]);
    }
  }

  /** Every value, nested lists included, is read as it was written exactly when no string in it holds
      a single quote. */
  lemma ValueRoundTrip(v: Value, isNumber: string -> bool)
    requires FloatLike(isNumber)
    ensures ReadToml(ToToml(v, isNumber)) == Some(v) <==> Plain(v)
  {
    hide ReadItem, ToToml, ReadArray;
    var text := ToToml(v, isNumber);
    if Plain(v) {
      WrittenIsRead(v, isNumber, "");
      assert text + "" == text;
    } else {
      ReadIsPlain(text);
    }
  }
}
