/** The .NET string operations the clients rely on, with the semantics of the
    framework: `char.IsWhiteSpace`, `string.IsNullOrWhiteSpace` on a non-null
    string, `TrimStart`/`TrimEnd`/`Trim` with a set of characters, ordinal
    `IndexOf`, `string.Split(char)` and `string.Join(char, ...)`. */
module Text {
  import opened Wrappers

  /** The characters `char.IsWhiteSpace` accepts (Unicode separators plus the
      C0/C1 control characters U+0009..U+000D and U+0085). */
  predicate IsWhiteSpace(c: char) {
    c == ' ' || ('\t' <= c <= '\r') || c == '\U{0085}' || c == '\U{00A0}'
    || c == '\U{1680}' || ('\U{2000}' <= c <= '\U{200A}') || c == '\U{2028}'
    || c == '\U{2029}' || c == '\U{202F}' || c == '\U{205F}' || c == '\U{3000}'
  }

  /** `string.IsNullOrWhiteSpace` for a non-null string. */
  predicate IsBlank(s: string) {
    forall i :: 0 <= i < |s| ==> IsWhiteSpace(s[i])
  }

  /** `s.TrimStart(chars)`: drops every leading character that is in `chars`. */
  function TrimStart(s: string, chars: set<char>): string {
    if |s| > 0 && s[0] in chars then TrimStart(s[1..], chars) else s
  }

  /** `s.TrimEnd(chars)`: drops every trailing character that is in `chars`. */
  function TrimEnd(s: string, chars: set<char>): string {
    if |s| > 0 && s[|s| - 1] in chars then TrimEnd(s[..|s| - 1], chars) else s
  }

  /** `s.Trim(chars)`: both ends. */
  function Trim(s: string, chars: set<char>): string {
    TrimEnd(TrimStart(s, chars), chars)
  }

  /** `TrimStart` keeps a suffix that does not start with a trimmed
      character, and drops only trimmed characters. */
  lemma {:induction false} TrimStartShape(s: string, chars: set<char>)
    ensures var r := TrimStart(s, chars);
            |r| <= |s| && r == s[|s| - |r|..]
            && (r == [] || r[0] !in chars)
            && forall i :: 0 <= i < |s| - |r| ==> s[i] in chars
  {
    if |s| > 0 && s[0] in chars {
      TrimStartShape(s[1..], chars);
    }
  }

  /** `TrimEnd` keeps a prefix that does not end with a trimmed character,
      and drops only trimmed characters. */
  lemma {:induction false} TrimEndShape(s: string, chars: set<char>)
    ensures var r := TrimEnd(s, chars);
            |r| <= |s| && r == s[..|r|]
            && (r == [] || r[|r| - 1] !in chars)
            && forall i :: |r| <= i < |s| ==> s[i] in chars
  {
    if |s| > 0 && s[|s| - 1] in chars {
      TrimEndShape(s[..|s| - 1], chars);
    }
  }

  /** `Trim` keeps a slice of the input whose ends are not trimmed
      characters. */
  lemma TrimShape(s: string, chars: set<char>)
    ensures var r := Trim(s, chars);
            (r == [] || (r[0] !in chars && r[|r| - 1] !in chars))
            && forall c :: c in r ==> c in s
  {
    var t := TrimStart(s, chars);
    TrimStartShape(s, chars);
    TrimEndShape(t, chars);
    var r := TrimEnd(t, chars);
    var lo := |s| - |t|;
    assert r == s[lo..lo + |r|];
    forall c | c in r
      ensures c in s
    {
      var i :| 0 <= i < |r| && r[i] == c;
      assert s[lo + i] == c;
    }
  }

  /** Whether `pattern` occurs in `s` at position `k` (ordinal comparison). */
  predicate OccursAt(s: string, pattern: string, k: int) {
    0 <= k && k + |pattern| <= |s| && s[k..k + |pattern|] == pattern
  }

  /** `s.IndexOf(pattern, from, StringComparison.Ordinal)`: the first position
      at or after `from` where `pattern` occurs; an empty pattern is found at
      `from` itself. */
  function IndexOf(s: string, pattern: string, from: nat): (r: Option<nat>)
    requires from <= |s|
    ensures r.Some? ==> from <= r.value && OccursAt(s, pattern, r.value)
    ensures r.Some? ==> forall k :: from <= k < r.value ==> !OccursAt(s, pattern, k)
    ensures r.None? ==> forall k :: from <= k <= |s| ==> !OccursAt(s, pattern, k)
    decreases |s| - from
  {
    if from + |pattern| > |s| then None
    else if s[from..from + |pattern|] == pattern then Some(from)
    else if from == |s| then None
    else IndexOf(s, pattern, from + 1)
  }

  /** `s.IndexOf(c)`: the first position of the character `c`. */
  function IndexOfChar(s: string, c: char): (r: Option<nat>)
    ensures r.Some? ==> r.value < |s| && s[r.value] == c && c !in s[..r.value]
    ensures r.None? <==> c !in s
  {
    if |s| == 0 then None
    else if s[0] == c then Some(0)
    else match IndexOfChar(s[1..], c)
      case None => None
      case Some(k) => Some(k + 1)
  }

  /** Number of occurrences of `c` in `s`. */
  function Count(s: string, c: char): nat {
    if s == [] then 0 else Count(s[..|s| - 1], c) + (if s[|s| - 1] == c then 1 else 0)
  }

  /** The positions of every `c` in `s`, in increasing order. */
  function Positions(s: string, c: char): (r: seq<nat>)
    ensures forall k :: 0 <= k < |r| ==> r[k] < |s| && s[r[k]] == c
    ensures forall j, k :: 0 <= j < k < |r| ==> r[j] < r[k]
  {
    if s == [] then []
    else Positions(s[..|s| - 1], c) + (if s[|s| - 1] == c then [|s| - 1] else [])
  }

  /** Strictly increasing positions inside `s`. */
  predicate ValidCuts(s: string, cuts: seq<nat>) {
    (forall k :: 0 <= k < |cuts| ==> cuts[k] < |s|)
    && (forall j, k :: 0 <= j < k < |cuts| ==> cuts[j] < cuts[k])
  }

  /** The pieces of `s` between the cut positions; the character at each cut
      is dropped.  With the positions of every separator this is
      `string.Split(separator)`. */
  function SplitAt(s: string, cuts: seq<nat>): (r: seq<string>)
    requires ValidCuts(s, cuts)
    ensures |r| == |cuts| + 1
    decreases |cuts|
  {
    if cuts == [] then [s]
    else
      var last := cuts[|cuts| - 1];
      SplitAt(s[..last], cuts[..|cuts| - 1]) + [s[last + 1..]]
  }

  /** `string.Split(separator)`. */
  function Split(s: string, separator: char): seq<string> {
    SplitAt(s, Positions(s, separator))
  }

  /** `string.Join(separator, pieces)` for a non-empty sequence. */
  function Join(pieces: seq<string>, separator: char): string
    requires |pieces| > 0
    decreases |pieces|
  {
    if |pieces| == 1 then pieces[0]
    else Join(pieces[..|pieces| - 1], separator) + [separator] + pieces[|pieces| - 1]
  }

  /** Cutting at separator characters and joining with that separator gives
      the string back. */
  lemma {:induction false} JoinSplitAt(s: string, cuts: seq<nat>, separator: char)
    requires ValidCuts(s, cuts)
    requires forall k :: 0 <= k < |cuts| ==> s[cuts[k]] == separator
    ensures Join(SplitAt(s, cuts), separator) == s
    decreases |cuts|
  {
    if cuts != [] {
      var last := cuts[|cuts| - 1];
      var init := cuts[..|cuts| - 1];
      assert ValidCuts(s[..last], init);
      JoinSplitAt(s[..last], init, separator);
      var pieces := SplitAt(s, cuts);
      assert pieces[..|pieces| - 1] == SplitAt(s[..last], init);
      assert s == s[..last] + [separator] + s[last + 1..];
    }
  }

  /** `string.Split` loses nothing: joining the pieces gives the input. */
  lemma SplitJoin(s: string, separator: char)
    ensures Join(Split(s, separator), separator) == s
  {
    JoinSplitAt(s, Positions(s, separator), separator);
  }

  /** There are as many separator positions as separators. */
  lemma {:induction false} PositionsCount(s: string, c: char)
    ensures |Positions(s, c)| == Count(s, c)
  {
    if s != [] {
      PositionsCount(s[..|s| - 1], c);
    }
  }

  /** `string.Split` yields one more piece than there are separators. */
  lemma SplitLength(s: string, separator: char)
    ensures |Split(s, separator)| == Count(s, separator) + 1
  {
    PositionsCount(s, separator);
  }

  /** Every position of `c` is listed. */
  lemma {:induction false} PositionsComplete(s: string, c: char, i: nat)
    requires i < |s| && s[i] == c
    ensures i in Positions(s, c)
  {
    if i < |s| - 1 {
      PositionsComplete(s[..|s| - 1], c, i);
    }
  }

  /** No piece of `string.Split` contains the separator. */
  lemma SplitPiecesSeparatorFree(s: string, separator: char, k: nat)
    requires k < |Split(s, separator)|
    ensures separator !in Split(s, separator)[k]
  {
    var cuts := Positions(s, separator);
    SplitAtPieceBetweenCuts(s, cuts, k);
    var lo := if k == 0 then 0 else cuts[k - 1] + 1;
    var hi := if k == |cuts| then |s| else cuts[k];
    forall j | lo <= j < hi
      ensures s[j] != separator
    {
      if s[j] == separator {
        PositionsComplete(s, separator, j);
        assert false;
      }
    }
  }

  /** No piece of `string.Split` contains the separator, for all pieces. */
  lemma SplitPiecesAllSeparatorFree(s: string, separator: char)
    ensures forall k :: 0 <= k < |Split(s, separator)| ==> separator !in Split(s, separator)[k]
  {
    forall k | 0 <= k < |Split(s, separator)|
      ensures separator !in Split(s, separator)[k]
    {
      SplitPiecesSeparatorFree(s, separator, k);
    }
  }

  /** The k-th piece is the text strictly between the (k-1)-th and k-th cuts. */
  lemma {:induction false} SplitAtPieceBetweenCuts(s: string, cuts: seq<nat>, k: nat)
    requires ValidCuts(s, cuts)
    requires k <= |cuts|
    ensures var lo := if k == 0 then 0 else cuts[k - 1] + 1;
            var hi := if k == |cuts| then |s| else cuts[k];
            lo <= hi <= |s| && SplitAt(s, cuts)[k] == s[lo..hi]
    decreases |cuts|
  {
    if cuts != [] {
      var last := cuts[|cuts| - 1];
      var init := cuts[..|cuts| - 1];
      assert ValidCuts(s[..last], init);
      if k < |cuts| {
        SplitAtPieceBetweenCuts(s[..last], init, k);
        if k < |init| {
          assert cuts[k] < last;
        }
      }
    }
  }

  /** Trimming removes exactly the surrounding characters from the set. */
  lemma TrimSurrounded(before: string, x: string, after: string, chars: set<char>)
    requires forall i :: 0 <= i < |before| ==> before[i] in chars
    requires forall i :: 0 <= i < |after| ==> after[i] in chars
    requires x == [] || (x[0] !in chars && x[|x| - 1] !in chars)
    ensures Trim(before + x + after, chars) == x
  {
    assert before + x + after == before + (x + after);
    TrimStartPrefix(before, x + after, chars);
    if x == [] {
      assert x + after == after + [];
      TrimStartPrefix(after, [], chars);
    } else {
      assert TrimStart(x + after, chars) == x + after;
    }
    TrimEndSuffix(x, after, chars);
  }

  /** Leading characters from the set are all dropped. */
  lemma {:induction false} TrimStartPrefix(before: string, rest: string, chars: set<char>)
    requires forall i :: 0 <= i < |before| ==> before[i] in chars
    ensures TrimStart(before + rest, chars) == TrimStart(rest, chars)
    decreases |before|
  {
    if before != [] {
      assert (before + rest)[1..] == before[1..] + rest;
      TrimStartPrefix(before[1..], rest, chars);
    } else {
      assert before + rest == rest;
    }
  }

  /** Trailing characters from the set are all dropped, and no more. */
  lemma {:induction false} TrimEndSuffix(x: string, after: string, chars: set<char>)
    requires forall i :: 0 <= i < |after| ==> after[i] in chars
    requires x == [] || x[|x| - 1] !in chars
    ensures TrimEnd(x + after, chars) == x
    decreases |after|
  {
    if after != [] {
      var shorter := after[..|after| - 1];
      assert (x + after)[..|x + after| - 1] == x + shorter;
      TrimEndSuffix(x, shorter, chars);
    } else {
      assert x + after == x;
    }
  }

  /** A string without the separator has no separator positions. */
  lemma {:induction false} PositionsNone(s: string, c: char)
    requires c !in s
    ensures Positions(s, c) == []
  {
    if s != [] {
      PositionsNone(s[..|s| - 1], c);
    }
  }

  /** Appending text without the separator adds no positions. */
  lemma {:induction false} PositionsAppendFree(prefix: string, y: string, c: char)
    requires c !in y
    ensures Positions(prefix + y, c) == Positions(prefix, c)
    decreases |y|
  {
    if y != [] {
      var shorter := y[..|y| - 1];
      assert (prefix + y)[..|prefix + y| - 1] == prefix + shorter;
      PositionsAppendFree(prefix, shorter, c);
    } else {
      assert prefix + y == prefix;
    }
  }

  /** A string without the separator splits into itself. */
  lemma SplitNone(x: string, separator: char)
    requires separator !in x
    ensures Split(x, separator) == [x]
  {
    PositionsNone(x, separator);
  }

  /** Splitting `rest,y` where `y` holds no separator: the pieces of `rest`,
      then `y`. */
  lemma SplitSnoc(rest: string, y: string, separator: char)
    requires separator !in y
    ensures Split(rest + [separator] + y, separator) == Split(rest, separator) + [y]
  {
    var s := rest + [separator] + y;
    PositionsAppendFree(rest + [separator], y, separator);
    assert (rest + [separator])[..|rest|] == rest;
    var cuts := Positions(s, separator);
    assert cuts == Positions(rest, separator) + [|rest|];
    assert cuts[..|cuts| - 1] == Positions(rest, separator);
    assert s[..|rest|] == rest && s[|rest| + 1..] == y;
  }

  /** Joining separator-free pieces and splitting again gives the pieces
      back. */
  lemma {:induction false} SplitJoined(pieces: seq<string>, separator: char)
    requires |pieces| > 0
    requires forall k :: 0 <= k < |pieces| ==> separator !in pieces[k]
    ensures Split(Join(pieces, separator), separator) == pieces
    decreases |pieces|
  {
    if |pieces| == 1 {
      SplitNone(pieces[0], separator);
    } else {
      var init := pieces[..|pieces| - 1];
      SplitJoined(init, separator);
      SplitSnoc(Join(init, separator), pieces[|pieces| - 1], separator);
    }
  }

  /** A join starts with its first piece and ends with its last. */
  lemma {:induction false} JoinEnds(pieces: seq<string>, separator: char)
    requires |pieces| > 0
    ensures |Join(pieces, separator)| >= |pieces[0]|
    ensures Join(pieces, separator)[..|pieces[0]|] == pieces[0]
    ensures var last := pieces[|pieces| - 1];
            |Join(pieces, separator)| >= |last|
            && Join(pieces, separator)[|Join(pieces, separator)| - |last|..] == last
    decreases |pieces|
  {
    if |pieces| > 1 {
      var init := pieces[..|pieces| - 1];
      JoinEnds(init, separator);
      assert init[0] == pieces[0];
      var j := Join(init, separator);
      assert Join(pieces, separator)[..|j|] == j;
    }
  }
}
