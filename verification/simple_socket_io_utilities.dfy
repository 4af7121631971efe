/** The event-array splitter of the SimpleSocketIoClient revision: strip the
    brackets, split at every comma, strip the quotes of every piece. */
module SimpleSocketIoUtilities {
  import opened Wrappers
  import opened Exceptions
  import opened Text

  const Brackets: set<char> := {'[', ']'}
  const Quotes: set<char> := {'"'}

  /** `StartsWith("[")` and `EndsWith("]")`. */
  predicate IsArrayText(text: string) {
    |text| > 0 && text[0] == '[' && text[|text| - 1] == ']'
  }

  /** Neither first nor last character is a double quote. */
  predicate Unquoted(s: string) {
    s == [] || (s[0] != '"' && s[|s| - 1] != '"')
  }

  /** `GetEventValues`: an ArgumentException unless the text is bracketed;
      otherwise one value per comma-separated piece of the bracket-trimmed
      text, whatever the nesting, none holding a comma and none quoted at
      either end. */
  function GetEventValues(text: string): (r: Result<seq<string>, Exception>)
    ensures r.Err? <==> !IsArrayText(text)
    ensures r.Err? ==> r.error == Argument("text must begin with '[' and end with ']'")
    ensures r.Ok? ==> |r.value| == Count(Trim(text, Brackets), ',') + 1
    ensures r.Ok? ==> forall k :: 0 <= k < |r.value| ==> ',' !in r.value[k] && Unquoted(r.value[k])
  {
    if !IsArrayText(text) then Err(Argument("text must begin with '[' and end with ']'"))
    else
      var pieces := Split(Trim(text, Brackets), ',');
      SplitLength(Trim(text, Brackets), ',');
      SplitPiecesAllSeparatorFree(Trim(text, Brackets), ',');
      TrimQuotesShape(pieces);
      Ok(TrimQuotes(pieces))
  }

  /** `Select(value => value.Trim('"'))`. */
  function TrimQuotes(pieces: seq<string>): (r: seq<string>)
    ensures |r| == |pieces|
  {
    seq(|pieces|, k requires 0 <= k < |pieces| => Trim(pieces[k], Quotes))
  }

  /** Each value is unquoted at both ends and keeps only characters of its
      piece. */
  lemma TrimQuotesShape(pieces: seq<string>)
    ensures forall k :: 0 <= k < |pieces| ==> Unquoted(TrimQuotes(pieces)[k])
    ensures forall k, c :: 0 <= k < |pieces| && c in TrimQuotes(pieces)[k] ==> c in pieces[k]
  {
    forall k | 0 <= k < |pieces|
      ensures Unquoted(TrimQuotes(pieces)[k])
      ensures forall c :: c in TrimQuotes(pieces)[k] ==> c in pieces[k]
    {
      TrimShape(pieces[k], Quotes);
    }
  }

  /** Every comma-separated piece, before its quotes are stripped, is the
      text between two consecutive commas: joined back with commas they
      give the bracket-trimmed text. */
  lemma GetEventValuesLosesOnlyQuotes(text: string)
    requires IsArrayText(text)
    ensures var pieces := Split(Trim(text, Brackets), ',');
            Join(pieces, ',') == Trim(text, Brackets)
            && GetEventValues(text) == Ok(TrimQuotes(pieces))
  {
    SplitJoin(Trim(text, Brackets), ',');
  }

  /** `"s"`: a JSON string literal without escaping. */
  function Quoted(s: string): string {
    "\"" + s + "\""
  }

  /** Text that survives being a piece: no comma, and neither end a quote. */
  predicate Plain(s: string) {
    ',' !in s && Unquoted(s)
  }

  /** A quoted plain text holds no comma and is a quote at both ends. */
  lemma QuotedShape(s: string)
    requires Plain(s)
    ensures ',' !in Quoted(s)
    ensures Quoted(s)[0] == '"' && Quoted(s)[|Quoted(s)| - 1] == '"'
    ensures Trim(Quoted(s), Quotes) == s
  {
    TrimSurrounded("\"", s, "\"", Quotes);
  }

  /** Quoting adds no character but the quote. */
  lemma QuotedWithout(s: string, c: char)
    requires c !in s && c != '"'
    ensures c !in Quoted(s)
  {
  }

  /** The arrays `Emit` writes, `"[" + string.Join(",", items) + "]"`, give
      back their items without quotes, provided no item holds a comma, the
      first item does not start with a bracket and the last does not end
      with one. */
  lemma {:induction false} ArrayValues(items: seq<string>)
    requires |items| > 0
    requires forall k :: 0 <= k < |items| ==> ',' !in items[k]
    requires items[0] != [] && items[0][0] !in Brackets
    requires var last := items[|items| - 1]; last != [] && last[|last| - 1] !in Brackets
    ensures GetEventValues("[" + Join(items, ',') + "]") == Ok(TrimQuotes(items))
  {
    var body := Join(items, ',');
    JoinEnds(items, ',');
    assert body[0] == items[0][0];
    assert body[|body| - 1] == items[|items| - 1][|items[|items| - 1]| - 1];
    assert IsArrayText("[" + body + "]");
    TrimSurrounded("[", body, "]", Brackets);
    SplitJoined(items, ',');
  }

  /** Fixture `["message","value"]` of the unit tests. */
  lemma MessageValueFixture()
    ensures GetEventValues("[" + Join([Quoted("message"), Quoted("value")], ',') + "]") == Ok(["message", "value"])
  {
    QuotedShape("message");
    QuotedShape("value");
    var items := [Quoted("message"), Quoted("value")];
    ArrayValues(items);
    var values := TrimQuotes(items);
    assert values[0] == "message" && values[1] == "value";
    assert values == ["message", "value"];
  }

  /** Fixture `["message"]` of the unit tests. */
  lemma MessageFixture()
    ensures GetEventValues("[" + Join([Quoted("message")], ',') + "]") == Ok(["message"])
  {
    QuotedShape("message");
    ArrayValues([Quoted("message")]);
    var values := TrimQuotes([Quoted("message")]);
    assert values[0] == "message";
    assert values == ["message"];
  }

  /** Fixture `["message",{}]` of the unit tests. */
  lemma MessageObjectFixture()
    ensures var r := GetEventValues("[" + Join([Quoted("message"), "{}"], ',') + "]");
            r.Ok? && |r.value| == 2 && r.value[0] == "message" && r.value[1] == "{}"
  {
    QuotedShape("message");
    ArrayValues([Quoted("message"), "{}"]);
    TrimSurrounded("", "{}", "", Quotes);
    assert "" + "{}" + "" == "{}";
    var values := TrimQuotes([Quoted("message"), "{}"]);
    assert |values| == 2 && values[0] == "message" && values[1] == "{}";
  }

  /** The remaining fixture, `["new message",{"username":"1","message":"1"}]`,
      expects the object to stay whole; the code splits it at its comma and
      strips the quotes now at the ends of the two halves. */
  lemma ObjectWithCommasIsSplit()
    ensures var left, right := "{\"username\":\"1", "message\":\"1\"}";
            var r := GetEventValues("[" + Join([Quoted("new message"), left + "\"", "\"" + right], ',') + "]");
            r.Ok? && |r.value| == 3 && r.value[0] == "new message" && r.value[1] == left && r.value[2] == right
  {
    var left, right := "{\"username\":\"1", "message\":\"1\"}";
    QuotedShape("new message");
    ArrayValues([Quoted("new message"), left + "\"", "\"" + right]);
    assert "" + left + "\"" == left + "\"";
    TrimSurrounded("", left, "\"", Quotes);
    assert "\"" + right + "" == "\"" + right;
    TrimSurrounded("\"", right, "", Quotes);
    var values := TrimQuotes([Quoted("new message"), left + "\"", "\"" + right]);
    assert |values| == 3 && values[0] == "new message" && values[1] == left && values[2] == right;
  }
}
