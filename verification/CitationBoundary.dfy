/** The exported citation functions on strings (citationtext/citation.go and
    valid_adjacent.go): each derives the protected spans of the text it is given. */
module CitationBoundary {
  import opened GoText
  import opened Markdown
  import ProtectedSpans
  import opened Citation
  import opened CitationCluster
  import CitationText
  import CitationMeaning
  import CitationStrict
  import opened CitationRewrite
  import opened CitationString

  /** A text with its protected spans. */
  method Protected(lower: CaseMap, content: string) returns (t: Text)
    ensures t == Masked(lower, content)
  {
    var mask := ProtectedSpans.Compute(lower, content);
    var m := mask[..];
    t := seq(|content|, i requires 0 <= i < |content| => Ch(content[i], m[i]));
  }

  /** Scan: exactly the markers of the text, in order, each with the numbers it denotes. */
  method Scan(lower: CaseMap, content: string) returns (markers: seq<CitationText.Marker>)
    ensures markers == CitationText.MarkersOf(Cut(lower, content), 0)
    ensures CitationMeaning.ReadsFrom(Masked(lower, content), markers, 0)
  {
    var t := Protected(lower, content);
    markers := CitationText.ScanMarkers(t);
    CitationMeaning.ScanMeaning(t);
  }

  /** CanonicalizeAdjacent. */
  method CanonicalizeAdjacent(lower: CaseMap, content: string, valid: Evidence) returns (out: string)
    ensures out == CanonicalizeAdjacentOf(lower, content, valid)
  {
    var t := Protected(lower, content);
    var rewritten := CitationText.CanonicalizeAdjacent(t, valid);
    out := Chars(rewritten);
  }

  /** ValidAdjacent. */
  method ValidAdjacent(lower: CaseMap, content: string, valid: Evidence, requireMarker: bool) returns (ok: bool)
    ensures ok == ValidAdjacentOf(lower, content, valid, requireMarker)
  {
    var t := Protected(lower, content);
    ok := CitationText.ValidAdjacent(t, valid, requireMarker);
  }

  /** Canonicalize: None is ErrInvalid. */
  method Canonicalize(lower: CaseMap, content: string, valid: Evidence, maxIndex: int) returns (r: Option<string>)
    ensures r == CanonicalizeOf(lower, content, valid, maxIndex)
  {
    var t := Protected(lower, content);
    var rewritten := CitationStrict.Canonicalize(t, valid, maxIndex);
    r := if rewritten.Some? then Some(Chars(rewritten.value)) else None;
  }

  /** Valid. */
  method Valid(lower: CaseMap, content: string, valid: Evidence, maxIndex: int, requireMarker: bool) returns (ok: bool)
    ensures ok == ValidOf(lower, content, valid, maxIndex, requireMarker)
  {
    var t := Protected(lower, content);
    ok := CitationStrict.Valid(t, valid, maxIndex, requireMarker);
  }
}
