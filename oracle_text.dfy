// Extraction of a bracketed span from language-model output: the text from
// the first opening bracket to the last closing one, the step that precedes
// `json.loads` wherever the service reads a model's reply.

module OracleText {
  import opened Wrappers
  import opened Text

  /** What a language-model call produced: no client configured, a reply, or an exception. */
  datatype ModelReply =
    | NoClient
    | Replied(text: string)
    | Raised(message: string)

  /**
   * `start = text.find(open)`, `end = text.rfind(close) + 1`; the span
   * `text[start:end]` is used only when `start != -1 and end > start`.
   */
  function BracketSpan(text: string, open: char, close: char): (r: Option<(nat, nat)>)
    ensures r.Some? ==> var (s, e) := r.value;
      s < e <= |text| && text[s] == open && text[e - 1] == close
      && open !in text[..s] && close !in text[e..]
    ensures r.None? <==> (open !in text || close !in text || RFind(text, close) < Find(text, open))
  {
    var s := Find(text, open);
    var e := RFind(text, close) + 1;
    if s != -1 && e > s then Some((s, e)) else None
  }

  /** The span itself, when there is one. */
  function SpanText(text: string, open: char, close: char): (r: Option<string>)
    ensures r.Some? ==> |r.value| >= 1 && r.value[0] == open && r.value[|r.value| - 1] == close
    ensures r.Some? ==> Contains(text, r.value)
    ensures r.None? <==> BracketSpan(text, open, close).None?
  {
    var span := BracketSpan(text, open, close);
    if span.None? then None
    else
      var (s, e) := span.value;
      ContainsSlice(text, s, e);
      Some(text[s..e])
  }

  /** A reply that is exactly one bracketed value is its own span. */
  lemma WholeSpan(text: string, open: char, close: char)
    requires |text| >= 2 && text[0] == open && text[|text| - 1] == close
    ensures SpanText(text, open, close) == Some(text)
  {
    var s := Find(text, open);
    var e := RFind(text, close);
    assert open in text;
    assert close in text;
    assert text[0..|text|] == text;
  }

  /**
   * The code-fence removal applied to a stripped reply that opens with
   * "```": `text.split("\n", 1)[1]` drops the first line (and raises
   * IndexError when there is no newline), then `.rsplit("```", 1)[0]` drops
   * everything from the last fence on. A reply without a fence is kept.
   */
  function FenceBody(text: string): (r: Option<string>)
    ensures !StartsWith(text, "```") ==> r == Some(text)
    ensures StartsWith(text, "```") ==> (r.None? <==> '\n' !in text)
    ensures StartsWith(text, "```") && r.Some? ==>
              var rest := text[Find(text, '\n') + 1..];
              StartsWith(rest, r.value) && (r.value == rest || OccursAt(rest, "```", |r.value|))
  {
    if !StartsWith(text, "```") then Some(text)
    else
      var nl := Find(text, '\n');
      if nl < 0 then None
      else
        var rest := text[nl + 1..];
        var k := RFindSub(rest, "```");
        Some(if k < 0 then rest else rest[..k])
  }

  /** A fenced reply is read as its body, whatever the body holds: the closing fence is the last one. */
  lemma FencedBody(first: string, body: string)
    requires '\n' !in first
    ensures FenceBody("```" + first + "\n" + body + "```") == Some(body)
  {
    var text := "```" + first + "\n" + body + "```";
    assert text[..3] == "```";
    FirstNewline(first, body + "```");
    assert text == "```" + first + "\n" + (body + "```");
    var rest := text[3 + |first| + 1..];
    assert rest == body + "```";
    assert OccursAt(rest, "```", |rest| - 3);
    assert rest[..|body|] == body;
  }

  /** The newline after the opening fence line is the first one. */
  lemma FirstNewline(first: string, tail: string)
    requires '\n' !in first
    ensures Find("```" + first + "\n" + tail, '\n') == 3 + |first|
  {
    var text := "```" + first + "\n" + tail;
    assert text[3 + |first|] == '\n';
    assert text[..3 + |first|] == "```" + first;
  }
}
