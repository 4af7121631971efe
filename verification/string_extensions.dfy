/** `StringExtensions.Extract` of the SimpleSocketIoClient revision: the text
    between the first occurrence of a start marker and the next occurrence
    of an end marker. */
module StringExtensions {
  import opened Wrappers
  import opened Text

  /** Null when `start` is absent; everything after it when there is no end
      marker; otherwise the text up to the first `end` found after `start`,
      or null when there is none. Matching is ordinal. */
  function Extract(text: string, start: string, end: Option<string>): (r: Option<string>)
    ensures IndexOf(text, start, 0).None? ==> r.None?
    ensures IndexOf(text, start, 0).Some? && end.None? ==>
              r.Some? && text == text[..IndexOf(text, start, 0).value] + start + r.value
    ensures IndexOf(text, start, 0).Some? && end.Some? ==>
              var from := IndexOf(text, start, 0).value + |start|;
              (r.None? <==> forall k :: from <= k <= |text| ==> !OccursAt(text, end.value, k))
              && (r.Some? ==> OccursAt(text, start + r.value + end.value, from - |start|)
                              && forall k :: from <= k < from + |r.value| ==> !OccursAt(text, end.value, k))
  {
    match IndexOf(text, start, 0)
    case None => None
    case Some(index1) =>
      var from := index1 + |start|;
      match end
      case None =>
        AfterStart(text, start, index1);
        Some(text[from..])
      case Some(e) =>
        match IndexOf(text, e, from)
        case None => None
        case Some(index2) =>
          Framed(text, start, e, index1, index2);
          assert from <= index2 <= |text| && OccursAt(text, e, index2);
          Some(text[from..index2])
  }

  /** The text around a start marker at `i`. */
  lemma AfterStart(text: string, start: string, i: nat)
    requires OccursAt(text, start, i)
    ensures text == text[..i] + start + text[i + |start|..]
  {
    assert text == text[..i] + text[i..i + |start|] + text[i + |start|..];
  }

  /** A start marker at `i`, then an end marker at `j` past it: the text
      from `i` is the start marker, what lies between, and the end marker. */
  lemma Framed(text: string, start: string, end: string, i: nat, j: nat)
    requires OccursAt(text, start, i) && OccursAt(text, end, j) && i + |start| <= j
    ensures OccursAt(text, start + text[i + |start|..j] + end, i)
  {
    assert text[i..j + |end|] == text[i..i + |start|] + text[i + |start|..j] + text[j..j + |end|];
  }
}
