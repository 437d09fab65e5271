/**
 * The pure string handling of the highlight detector (highlight_detector.py):
 * the subtitle block placed in the language-model prompt, and the bracket
 * slice that pulls the JSON array out of the model's reply.
 */
module HighlightDetector {
  import opened PyText
  import opened Records

  // ---------------------------------------------------------------------------
  // The subtitle block of the prompt

  /**
   * `f"[{start:.1f}s - {end:.1f}s]: {text}"`; `seconds` is the number
   * formatting `{:.1f}` applies to a time.
   */
  function PromptLine(s: Subtitle, seconds: int -> string): string {
    "[" + seconds(s.start) + "s - " + seconds(s.end) + "s]: " + s.text
  }

  /** The list comprehension: one line per subtitle, in order. */
  function PromptLines(subs: seq<Subtitle>, seconds: int -> string): seq<string> {
    seq(|subs|, i requires 0 <= i < |subs| => PromptLine(subs[i], seconds))
  }

  /** `"\n".join(...)` of the prompt lines. */
  function SubtitleBlock(subs: seq<Subtitle>, seconds: int -> string): string {
    Join(PromptLines(subs, seconds), "\n")
  }

  /** The part of a line that holds no line break when the text and both times hold none. */
  lemma PromptLineHasNoNewline(s: Subtitle, seconds: int -> string)
    requires '\n' !in s.text && '\n' !in seconds(s.start) && '\n' !in seconds(s.end)
    ensures '\n' !in PromptLine(s, seconds)
  {
    var line := PromptLine(s, seconds);
    var a, b := seconds(s.start), seconds(s.end);
    assert line == "[" + a + "s - " + b + "s]: " + s.text;
    forall i | 0 <= i < |line| ensures line[i] != '\n' {
      if i < 1 {
      } else if i < 1 + |a| {
        assert line[i] == a[i - 1];
      } else if i < 5 + |a| {
      } else if i < 5 + |a| + |b| {
        assert line[i] == b[i - 5 - |a|];
      } else if i < 9 + |a| + |b| {
      } else {
        assert line[i] == s.text[i - 9 - |a| - |b|];
      }
    }
  }

  /**
   * The block has one line per subtitle, in order: when no text and no
   * printed time holds a line break, splitting the block at line breaks gives
   * back exactly the prompt lines. An empty subtitle list gives an empty block.
   */
  lemma SubtitleBlockLines(subs: seq<Subtitle>, seconds: int -> string)
    requires forall i :: 0 <= i < |subs| ==>
               '\n' !in subs[i].text && '\n' !in seconds(subs[i].start) && '\n' !in seconds(subs[i].end)
    ensures subs == [] ==> SubtitleBlock(subs, seconds) == ""
    ensures subs != [] ==> Split(SubtitleBlock(subs, seconds), '\n') == PromptLines(subs, seconds)
  {
    var lines := PromptLines(subs, seconds);
    forall i | 0 <= i < |lines| ensures '\n' !in lines[i] {
      PromptLineHasNoNewline(subs[i], seconds);
    }
    if subs != [] {
      SplitJoin(lines, '\n');
    }
  }

  // ---------------------------------------------------------------------------
  // Pulling the JSON array out of the reply

  /** `content[content.find('['):content.rfind(']') + 1]`. */
  function ExtractJson(content: string): (r: string)
    ensures |r| <= |content|
  {
    Slice(content, Find(content, '['), RFind(content, ']') + 1)
  }

  /**
   * When the first `[` comes before the last `]`, the result is the text from
   * that `[` through that `]`: it opens with `[`, closes with `]`, no `[`
   * precedes it and no `]` follows it.
   */
  lemma ExtractJsonBracketed(content: string)
    requires 0 <= Find(content, '[') < RFind(content, ']')
    ensures var i, j := Find(content, '['), RFind(content, ']');
            var r := ExtractJson(content);
            && r == content[i..j + 1]
            && r[0] == '[' && r[|r| - 1] == ']'
            && '[' !in content[..i] && ']' !in content[j + 1..]
  {
    var i, j := Find(content, '['), RFind(content, ']');
    assert ExtractJson(content) == Slice(content, i, j + 1);
    BracketedSlice(content, i, j, ExtractJson(content));
  }

  lemma BracketedSlice(content: string, i: int, j: int, r: string)
    requires 0 <= i < j < |content| && content[i] == '[' && content[j] == ']'
    requires r == Slice(content, i, j + 1)
    ensures r == content[i..j + 1] && r[0] == '[' && r[|r| - 1] == ']'
  {
    assert SliceBound(i, |content|) == i && SliceBound(j + 1, |content|) == j + 1;
  }


  /** With no `]`, the end bound is 0 and the slice is empty. */
  lemma ExtractJsonNoCloser(content: string)
    requires ']' !in content
    ensures ExtractJson(content) == ""
  {
  }

  /**
   * With no `[`, the start bound -1 counts from the end: the slice is the
   * final character when that character is `]`, and empty otherwise.
   */
  lemma ExtractJsonNoOpener(content: string)
    requires '[' !in content
    ensures ExtractJson(content) == if content != [] && content[|content| - 1] == ']' then "]" else ""
  {
    if content != [] && content[|content| - 1] == ']' {
      assert RFind(content, ']') == |content| - 1;
      assert content[|content| - 1..] == "]";
    }
  }

  /** When every `]` precedes the first `[`, the slice is empty. */
  lemma ExtractJsonCloserFirst(content: string)
    requires 0 <= RFind(content, ']') < Find(content, '[')
    ensures ExtractJson(content) == ""
  {
  }
}
