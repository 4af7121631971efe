/** The event-array splitter of the current Socket.IO client: strip the
    brackets, cut at every comma outside `{...}` objects, strip the quotes of
    every piece.  Square brackets inside the array are not counted. */
module SocketIoUtilities {
  import opened Wrappers
  import opened Exceptions
  import opened Text
  import opened SimpleSocketIoUtilities

  const ArrayFormatMessage: string := "text must begin with '[' and end with ']'"

  /** The running object depth after `s`: opening braces minus closing
      braces. */
  function Depth(s: string): int {
    if s == [] then 0
    else
      var c := s[|s| - 1];
      Depth(s[..|s| - 1]) + (if c == '{' then 1 else if c == '}' then -1 else 0)
  }

  /** The positions of the commas of `s` met at depth 0, in increasing
      order: the `indexes` list the loop builds. */
  function TopLevelCommas(s: string): (r: seq<nat>)
    ensures ValidCuts(s, r)
    ensures forall k :: 0 <= k < |r| ==> s[r[k]] == ','
  {
    if s == [] then []
    else
      var n := |s| - 1;
      TopLevelCommas(s[..n]) + (if s[n] == ',' && Depth(s[..n]) == 0 then [n] else [])
  }

  /** A position is a cut exactly when it holds a comma outside every
      object. */
  lemma {:induction false} TopLevelCommasExactly(s: string, i: int)
    ensures i in TopLevelCommas(s) <==> 0 <= i < |s| && s[i] == ',' && Depth(s[..i]) == 0
  {
    if s != [] {
      var n := |s| - 1;
      TopLevelCommasExactly(s[..n], i);
      if 0 <= i < n {
        assert s[..n][..i] == s[..i];
      }
    }
  }

  /** What `GetJsonArrayValues` returns: an ArgumentException unless the text
      is bracketed; otherwise the bracket-trimmed text cut at its top-level
      commas, each piece with its quotes trimmed. */
  function JsonArrayValues(text: string): (r: Result<seq<string>, Exception>)
    ensures r.Err? <==> !IsArrayText(text)
    ensures r.Err? ==> r.error == Argument(ArrayFormatMessage)
    ensures r.Ok? ==> |r.value| == |TopLevelCommas(Trim(text, Brackets))| + 1
    ensures r.Ok? ==> forall k :: 0 <= k < |r.value| ==> Unquoted(r.value[k])
  {
    if !IsArrayText(text) then Err(Argument(ArrayFormatMessage))
    else
      var t := Trim(text, Brackets);
      TrimQuotesShape(SplitAt(t, TopLevelCommas(t)));
      Ok(TrimQuotes(SplitAt(t, TopLevelCommas(t))))
  }

  /** `GetJsonArrayValues`: the loop keeps the brace counter and the list of
      top-level comma positions for the prefix scanned so far. */
  method GetJsonArrayValues(text: string) returns (r: Result<seq<string>, Exception>)
    ensures r == JsonArrayValues(text)
  {
    if !IsArrayText(text) {
      return Err(Argument(ArrayFormatMessage));
    }
    var t := Trim(text, Brackets);
    var indexes: seq<nat> := [];
    var countOfObjects := 0;
    for i := 0 to |t|
      invariant countOfObjects == Depth(t[..i])
      invariant indexes == TopLevelCommas(t[..i])
    {
      assert t[..i + 1][..i] == t[..i];
      if t[i] == '{' {
        countOfObjects := countOfObjects + 1;
      } else if t[i] == '}' {
        countOfObjects := countOfObjects - 1;
      } else if t[i] == ',' && countOfObjects == 0 {
        indexes := indexes + [i];
      }
    }
    assert t[..|t|] == t;
    r := Ok(TrimQuotes(SplitAt(t, indexes)));
  }

  /** Nothing but quotes is lost: the pieces joined with commas give the
      bracket-trimmed text back. */
  lemma PiecesJoinBack(text: string)
    requires IsArrayText(text)
    ensures var t := Trim(text, Brackets);
            Join(SplitAt(t, TopLevelCommas(t)), ',') == t
  {
    var t := Trim(text, Brackets);
    JoinSplitAt(t, TopLevelCommas(t), ',');
  }

  /** The depth is additive over concatenation. */
  lemma {:induction false} DepthAppend(p: string, y: string)
    ensures Depth(p + y) == Depth(p) + Depth(y)
    decreases |y|
  {
    if y != [] {
      var n := |y| - 1;
      assert (p + y)[..|p + y| - 1] == p + y[..n];
      DepthAppend(p, y[..n]);
    } else {
      assert p + y == p;
    }
  }

  /** One more character: a comma at depth 0 is one more cut, and only a
      brace changes the depth. */
  lemma TopLevelCommasSnoc(x: string, c: char)
    ensures TopLevelCommas(x + [c]) == TopLevelCommas(x) + (if c == ',' && Depth(x) == 0 then [|x|] else [])
    ensures Depth(x + [c]) == Depth(x) + (if c == '{' then 1 else if c == '}' then -1 else 0)
  {
    assert (x + [c])[..|x|] == x;
  }

  lemma {:induction false} TopLevelCommasAppendFree(p: string, y: string)
    requires ',' !in y
    ensures TopLevelCommas(p + y) == TopLevelCommas(p)
    decreases |y|
  {
    if y != [] {
      var n := |y| - 1;
      assert (p + y)[..|p + y| - 1] == p + y[..n];
      TopLevelCommasAppendFree(p, y[..n]);
    } else {
      assert p + y == p;
    }
  }

  /** Comma-free pieces whose braces balance, joined with commas, have
      every comma at depth 0: the splitter then cuts at all of them. */
  lemma {:induction false} BalancedJoinCuts(items: seq<string>)
    requires |items| > 0
    requires forall k :: 0 <= k < |items| ==> ',' !in items[k] && Depth(items[k]) == 0
    ensures TopLevelCommas(Join(items, ',')) == Positions(Join(items, ','), ',')
    ensures Depth(Join(items, ',')) == 0
    decreases |items|
  {
    if |items| == 1 {
      TopLevelCommasAppendFree([], items[0]);
      PositionsNone(items[0], ',');
      assert [] + items[0] == items[0];
    } else {
      var init := items[..|items| - 1];
      var last := items[|items| - 1];
      var j := Join(init, ',');
      BalancedJoinCuts(init);
      TopLevelCommasAppendFree(j + [','], last);
      PositionsAppendFree(j + [','], last, ',');
      assert (j + [','])[..|j|] == j;
      DepthAppend(j + [','], last);
      DepthAppend(j, [',']);
    }
  }

  /** A text without braces has no object depth. */
  lemma {:induction false} DepthWithoutBraces(s: string)
    requires '{' !in s && '}' !in s
    ensures Depth(s) == 0
  {
    if s != [] {
      DepthWithoutBraces(s[..|s| - 1]);
    }
  }

  /** When every comma of `s` is outside objects, the top-level cuts are
      all the comma positions. */
  lemma {:induction false} AllCommasTopLevel(s: string)
    requires forall i :: 0 <= i < |s| && s[i] == ',' ==> Depth(s[..i]) == 0
    ensures TopLevelCommas(s) == Positions(s, ',')
  {
    if s != [] {
      var n := |s| - 1;
      forall i | 0 <= i < n && s[..n][i] == ','
        ensures Depth(s[..n][..i]) == 0
      {
        assert s[..n][..i] == s[..i];
      }
      AllCommasTopLevel(s[..n]);
    }
  }

  /** When every comma of the array is outside objects, the current
      splitter agrees with the older comma splitter. */
  lemma AgreesWithGetEventValues(text: string)
    requires IsArrayText(text)
    requires forall i :: 0 <= i < |Trim(text, Brackets)| && Trim(text, Brackets)[i] == ','
               ==> Depth(Trim(text, Brackets)[..i]) == 0
    ensures JsonArrayValues(text) == GetEventValues(text)
  {
    AllCommasTopLevel(Trim(text, Brackets));
  }

  /** Bracketed arrays whose items hold no comma and balance their braces
      split back into their items, quotes trimmed; the opening run of '['
      and the closing run of ']' are all trimmed away. */
  lemma {:induction false} BalancedArrayValues(opening: string, items: seq<string>, closing: string)
    requires opening != [] && forall i :: 0 <= i < |opening| ==> opening[i] == '['
    requires closing != [] && forall i :: 0 <= i < |closing| ==> closing[i] == ']'
    requires |items| > 0
    requires forall k :: 0 <= k < |items| ==> ',' !in items[k] && Depth(items[k]) == 0
    requires items[0] != [] && items[0][0] !in Brackets
    requires var last := items[|items| - 1]; last != [] && last[|last| - 1] !in Brackets
    ensures JsonArrayValues(opening + Join(items, ',') + closing) == Ok(TrimQuotes(items))
  {
    var body := Join(items, ',');
    JoinEnds(items, ',');
    assert body[0] == items[0][0];
    assert body[|body| - 1] == items[|items| - 1][|items[|items| - 1]| - 1];
    var text := opening + body + closing;
    assert text[0] == '[' && text[|text| - 1] == ']';
    TrimSurrounded(opening, body, closing, Brackets);
    BalancedJoinCuts(items);
    SplitJoined(items, ',');
  }

  /** Fixture `["message","value"]` of the unit tests. */
  lemma MessageValueFixture()
    ensures var r := JsonArrayValues("[" + Join([Quoted("message"), Quoted("value")], ',') + "]");
            r.Ok? && |r.value| == 2 && r.value[0] == "message" && r.value[1] == "value"
  {
    QuotedShape("message");
    QuotedShape("value");
    DepthWithoutBraces(Quoted("message"));
    DepthWithoutBraces(Quoted("value"));
    BalancedArrayValues("[", [Quoted("message"), Quoted("value")], "]");
  }

  /** Fixture `["message"]` of the unit tests. */
  lemma MessageFixture()
    ensures var r := JsonArrayValues("[" + Join([Quoted("message")], ',') + "]");
            r.Ok? && |r.value| == 1 && r.value[0] == "message"
  {
    QuotedShape("message");
    DepthWithoutBraces(Quoted("message"));
    BalancedArrayValues("[", [Quoted("message")], "]");
  }

  /** Fixtures `["message",{}]` and
      `["new message",{"username":"1","message":"1"}]` of the unit tests:
      the commas inside the object do not cut it. */
  lemma ObjectFixtures()
    ensures var r := JsonArrayValues("[" + Join([Quoted("message"), "{}"], ',') + "]");
            r.Ok? && |r.value| == 2 && r.value[0] == "message" && r.value[1] == "{}"
  {
    var items := [Quoted("message"), "{}"];
    QuotedShape("message");
    DepthWithoutBraces(Quoted("message"));
    assert Depth("{}") == 0;
    assert items[0][0] == '"' && items[1][1] == '}';
    BalancedArrayValues("[", items, "]");
    assert Trim("{}", Quotes) == "{}" by {
      TrimSurrounded("", "{}", "", Quotes);
      assert "" + "{}" + "" == "{}";
    }
    var values := TrimQuotes(items);
    assert |values| == 2 && values[0] == "message" && values[1] == "{}";
  }

  /** Inside an object opened after depth 0 and holding no other brace,
      the depth is 1 and no comma is a cut. */
  lemma {:induction false} InsideObject(p: string, q: string)
    requires Depth(p) == 0
    requires q != [] && q[0] == '{'
    requires forall i :: 1 <= i < |q| ==> q[i] != '{' && q[i] != '}'
    ensures TopLevelCommas(p + q) == TopLevelCommas(p) && Depth(p + q) == 1
    decreases |q|
  {
    assert (p + q)[..|p + q| - 1] == p + q[..|q| - 1];
    if |q| > 1 {
      InsideObject(p, q[..|q| - 1]);
    } else {
      assert q[..|q| - 1] == [];
      assert p + [] == p;
    }
  }

  /** The commas of a flat object, one with no inner braces, are never
      cuts, and the object closes back to depth 0. */
  lemma FlatObjectSkipped(p: string, o: string)
    requires Depth(p) == 0
    requires |o| >= 2 && o[0] == '{' && o[|o| - 1] == '}'
    requires forall i :: 1 <= i < |o| - 1 ==> o[i] != '{' && o[i] != '}'
    ensures TopLevelCommas(p + o) == TopLevelCommas(p) && Depth(p + o) == 0
  {
    var q := o[..|o| - 1];
    InsideObject(p, q);
    assert (p + o)[..|p + o| - 1] == p + q;
  }

  /** The top-level cut of a comma-free, brace-free item followed by a
      comma and a flat object is that one comma. */
  lemma ItemThenFlatObjectCuts(first: string, o: string)
    requires ',' !in first && '{' !in first && '}' !in first
    requires |o| >= 2 && o[0] == '{' && o[|o| - 1] == '}'
    requires forall i :: 1 <= i < |o| - 1 ==> o[i] != '{' && o[i] != '}'
    ensures TopLevelCommas(first + "," + o) == [|first|]
  {
    var p := first + [','];
    assert TopLevelCommas(first) == [] by {
      TopLevelCommasAppendFree([], first);
      assert [] + first == first;
    }
    assert Depth(first) == 0 by {
      DepthWithoutBraces(first);
    }
    assert TopLevelCommas(p) == [|first|] && Depth(p) == 0 by {
      TopLevelCommasSnoc(first, ',');
      assert [] + [|first|] == [|first|];
    }
    assert TopLevelCommas(p + o) == [|first|] by {
      FlatObjectSkipped(p, o);
    }
    assert first + "," + o == p + o;
  }

  /** A two-item array of a comma-free, brace-free first item and a flat
      object: the object stays whole. */
  lemma ArrayWithFlatObject(first: string, o: string)
    requires first != [] && first[0] !in Brackets
    requires ',' !in first && '{' !in first && '}' !in first
    requires |o| >= 2 && o[0] == '{' && o[|o| - 1] == '}'
    requires forall i :: 1 <= i < |o| - 1 ==> o[i] != '{' && o[i] != '}'
    ensures var r := JsonArrayValues("[" + (first + "," + o) + "]");
            r.Ok? && |r.value| == 2 && r.value[0] == Trim(first, Quotes) && r.value[1] == o
  {
    var body := first + "," + o;
    TrimSurrounded("[", body, "]", Brackets);
    assert Trim("[" + body + "]", Brackets) == body;
    ItemThenFlatObjectCuts(first, o);
    var pieces := SplitAt(body, [|first|]);
    assert pieces == SplitAt(body[..|first|], []) + [body[|first| + 1..]];
    assert body[..|first|] == first;
    assert body[|first| + 1..] == o;
    assert pieces == [first, o];
    TrimSurrounded("", o, "", Quotes);
    assert "" + o + "" == o;
  }

  /** Fixture `["new message",{"username":"1","message":"1"}]` of the unit
      tests: the commas inside the object do not cut it. */
  lemma NewMessageFixture()
    ensures var r := JsonArrayValues("[" + (Quoted("new message") + "," + "{\"username\":\"1\",\"message\":\"1\"}") + "]");
            r.Ok? && |r.value| == 2 && r.value[0] == "new message"
            && r.value[1] == "{\"username\":\"1\",\"message\":\"1\"}"
  {
    var o := "{\"username\":\"1\",\"message\":\"1\"}";
    assert |o| >= 2 && o[0] == '{' && o[|o| - 1] == '}';
    assert forall i :: 1 <= i < |o| - 1 ==> o[i] != '{' && o[i] != '}';
    QuotedShape("new message");
    assert Quoted("new message")[0] !in Brackets;
    QuotedWithout("new message", '{');
    QuotedWithout("new message", '}');
    ArrayWithFlatObject(Quoted("new message"), o);
  }

  /** The fixture `["messages",[{},{},{}]]` expects the inner array to stay
      whole; square brackets are not counted and `Trim` strips both closing
      brackets, so the code cuts the inner array at its commas. */
  lemma NestedArrayIsCut()
    ensures var r := JsonArrayValues("[" + Join([Quoted("messages"), "[{}", "{}", "{}"], ',') + "]]");
            r.Ok? && |r.value| == 4 && r.value[0] == "messages"
            && r.value[1] == "[{}" && r.value[2] == "{}" && r.value[3] == "{}"
  {
    var items := [Quoted("messages"), "[{}", "{}", "{}"];
    QuotedShape("messages");
    DepthWithoutBraces(Quoted("messages"));
    assert Depth("{}") == 0;
    assert Depth("[{}") == 0;
    assert items[0][0] == '"' && items[3][1] == '}';
    BalancedArrayValues("[", items, "]]");
    assert Trim("{}", Quotes) == "{}" by {
      TrimSurrounded("", "{}", "", Quotes);
      assert "" + "{}" + "" == "{}";
    }
    assert Trim("[{}", Quotes) == "[{}" by {
      TrimSurrounded("", "[{}", "", Quotes);
      assert "" + "[{}" + "" == "[{}";
    }
    var values := TrimQuotes(items);
    assert |values| == 4 && values[0] == "messages" && values[1] == "[{}" && values[2] == "{}" && values[3] == "{}";
  }

  /** The `SplitByIndexes` fixture: cutting at every comma drops the commas
      and keeps the brackets and quotes. */
  lemma SplitByIndexesFixture()
    ensures var pieces := ["[\"message\"", "\"value\"", "\"value\"", "\"value\"]"];
            SplitAt(Join(pieces, ','), Positions(Join(pieces, ','), ',')) == pieces
  {
    SplitJoined(["[\"message\"", "\"value\"", "\"value\"", "\"value\"]"], ',');
  }
}
