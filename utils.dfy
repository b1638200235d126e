/** The text helpers of `src/utils.py`: shortening a text for display and
    rendering a metadata mapping one entry per line. */
module Utils {
  import opened Common
  import opened Text

  /** The marker appended to a shortened text. */
  const Ellipsis := "..."

  /** `truncate_text(text, max_length)`: a text within the limit is kept;
      a longer one keeps its first `max_length` characters (Python slice
      semantics, so a negative limit counts from the end) followed by the
      marker. Every result starts with `text[:max_length]`. */
  function TruncateText(text: string, maxLength: int): (r: string)
    ensures |text| <= maxLength ==> r == text
    ensures |PyPrefix(text, maxLength)| <= |r| && r[..|PyPrefix(text, maxLength)|] == PyPrefix(text, maxLength)
    ensures |text| > maxLength ==> |r| >= 3 && r[|r| - 3..] == Ellipsis
    ensures 0 <= maxLength < |text| ==> |r| == maxLength + 3
    ensures maxLength >= 0 ==> |r| <= maxLength + 3
  {
    if |text| <= maxLength then text else PyPrefix(text, maxLength) + Ellipsis
  }

  /** Shortening is idempotent for a non-negative limit: a shortened text
      is longer than the limit, and shortening it again cuts it at the same
      place and appends the same marker. */
  lemma TruncateIdempotent(text: string, maxLength: int)
    requires maxLength >= 0
    ensures TruncateText(TruncateText(text, maxLength), maxLength) == TruncateText(text, maxLength)
  {
    if |text| > maxLength {
      var once := TruncateText(text, maxLength);
      assert once == text[..maxLength] + Ellipsis;
      assert PyPrefix(once, maxLength) == text[..maxLength];
    }
  }

  /** The line of one entry, `f"{key}: {value}"`. */
  function EntryLine(e: (string, Value)): string
  {
    e.0 + ": " + Show(e.1)
  }

  function EntryLines(m: Metadata): (r: seq<string>)
    ensures |r| == |m| && forall i :: 0 <= i < |m| ==> r[i] == EntryLine(m[i])
  {
    seq(|m|, i requires 0 <= i < |m| => EntryLine(m[i]))
  }

  /** `format_metadata`: the entries' lines in insertion order, joined by
      newlines. An empty mapping gives the empty text. */
  function FormatMetadata(m: Metadata): (r: string)
    ensures |m| == 0 ==> r == ""
    ensures |m| == 1 ==> r == EntryLine(m[0])
  {
    Join("\n", EntryLines(m))
  }

  /** When no key and no rendered value holds a newline, splitting the
      rendering at newlines gives back exactly one `key: value` line per
      entry, in order. */
  lemma FormatMetadataLines(m: Metadata)
    requires |m| > 0
    requires forall i :: 0 <= i < |m| ==> '\n' !in m[i].0 && '\n' !in Show(m[i].1)
    ensures Split(FormatMetadata(m), '\n') == EntryLines(m)
  {
    var lines := EntryLines(m);
    forall i | 0 <= i < |lines| ensures '\n' !in lines[i] {
      assert lines[i] == m[i].0 + ": " + Show(m[i].1);
    }
    SplitJoin(lines, '\n');
  }
}
