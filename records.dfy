/**
 * The two record shapes passed between the components: a subtitle entry (the
 * dict built by the subtitle extractor) and a highlight candidate (the dict
 * the highlight detector parses out of the language model's reply).
 * All times are integer microseconds.
 */
module Records {

  /** `{"id", "start", "end", "text", "confidence"}`. */
  datatype Subtitle = Subtitle(id: int, start: int, end: int, text: string, confidence: real)

  /** `{"start", "end", "reason", "score"}` on the original video's timeline. */
  datatype Highlight = Highlight(start: int, end: int, reason: string, score: int)

  function Max(a: int, b: int): int {
    if a >= b then a else b
  }

  function Min(a: int, b: int): int {
    if a <= b then a else b
  }
}
