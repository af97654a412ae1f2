/**
 * What the eligibility reasoner does with the model's answer before using
 * it: strip it, remove a Markdown code fence around it, and parse it as
 * JSON. The call to the model and the JSON parser are parameters.
 */
module ModelAnswer {
  import opened Wrappers
  import opened Strings
  import opened JsonValue

  const Fence := "```"
  const Newline := "\n"

  /** Whether a line closes the fence: it is the fence once stripped. */
  predicate ClosesWith(line: string, fence: string) {
    Strip(line) == fence
  }

  /**
   * The stripped answer `text` as is, or, when it starts with `fence`,
   * without its first line and without a last line that closes the fence:
   * `IndexError` when no line is left to look at.
   */
  function Unfence(text: string, fence: string): Result<string> {
    if !StartsWith(text, fence) then Ok(text)
    else
      var lines := Split(text, '\n');
      var body := if StartsWith(lines[0], fence) then lines[1..] else lines;
      if |body| == 0 then Err(IndexError)
      else if ClosesWith(body[|body| - 1], fence) then Ok(Join(body[..|body| - 1], Newline))
      else Ok(Join(body, Newline))
  }

  /** The answer handling of `analyze_with_claude`: strip, then remove a fence of three backquotes. */
  function FenceStripped(answer: string): Result<string> {
    Unfence(Strip(answer), Fence)
  }

  /** An unfenced answer is only stripped. */
  lemma UnfencedAnswer(answer: string)
    requires !StartsWith(Strip(answer), Fence)
    ensures FenceStripped(answer) == Ok(Strip(answer))
  {
  }

  /** A fence line with nothing after it leaves no line to look at: `IndexError`. */
  lemma LoneFence(answer: string)
    requires StartsWith(Strip(answer), Fence) && '\n' !in Strip(answer)
    ensures FenceStripped(answer) == Err(IndexError)
  {
    assert IndexOf(Strip(answer), '\n') == -1;
  }

  /** A first and a last line without newlines around a body split into the first line, the body's lines and the last. */
  lemma SplitAround(head: string, body: string, last: string)
    requires '\n' !in head && '\n' !in last
    ensures Split(head + Newline + body + Newline + last, '\n') == [head] + Split(body, '\n') + [last]
  {
    var front := head + Newline + body;
    assert head + Newline + body + Newline + last == front + ['\n'] + last;
    SplitSnoc(front, last, '\n');
    assert front[..|head|] == head;
    IndexOfAt(front, '\n', |head|);
    assert front[|head| + 1..] == body;
  }

  /** The fence does not start or end with whitespace. */
  lemma FenceEnds()
    ensures |Fence| == 3 && !IsSpace(Fence[0]) && !IsSpace(Fence[2])
  {
  }

  /** Stripping leaves the fence as it is. */
  lemma FenceKept()
    ensures Strip(Fence) == Fence
  {
    FenceEnds();
    StripNoop(Fence);
  }

  /** The fence is one line. */
  lemma FenceOneLine()
    ensures '\n' !in Fence
  {
  }

  /**
   * A stripped answer between two fence lines, with a one-line tag after
   * the first fence, gives back exactly what lies between the fence lines.
   */
  lemma UnfenceRoundTrip(fence: string, tag: string, body: string)
    requires '\n' !in fence && '\n' !in tag && ClosesWith(fence, fence)
    ensures Unfence(fence + tag + Newline + body + Newline + fence, fence) == Ok(body)
  {
    var text := fence + tag + Newline + body + Newline + fence;
    StartsWithConcat(fence, tag + Newline + body + Newline + fence);
    assert fence + (tag + Newline + body + Newline + fence) == text;
    SplitAround(fence + tag, body, fence);
    StartsWithConcat(fence, tag);
    var lines := [fence + tag] + Split(body, '\n') + [fence];
    assert lines[1..|lines| - 1] == Split(body, '\n');
    UnfenceLines(text, fence, lines);
    JoinSplit(body, '\n');
    assert Newline == ['\n'];
  }

  /** A text that opens and closes with fence lines gives the lines between, joined again. */
  lemma UnfenceLines(text: string, fence: string, lines: seq<string>)
    requires StartsWith(text, fence) && Split(text, '\n') == lines
    requires |lines| >= 2 && StartsWith(lines[0], fence) && ClosesWith(lines[|lines| - 1], fence)
    ensures Unfence(text, fence) == Ok(Join(lines[1..|lines| - 1], Newline))
  {
    assert lines[1..][..|lines| - 2] == lines[1..|lines| - 1];
  }

  /** An answer that does not start or end with whitespace is its own stripped text. */
  lemma FencedAnswerKept(tag: string, body: string)
    ensures Strip(Fence + tag + Newline + body + Newline + Fence) == Fence + tag + Newline + body + Newline + Fence
  {
    FenceEnds();
    var answer := Fence + tag + Newline + body + Newline + Fence;
    assert answer[0] == Fence[0] && answer[|answer| - 1] == Fence[2];
    StripNoop(answer);
  }

  /**
   * An answer fenced as the model writes it, an opening fence with an
   * optional language tag, the body on the lines between, and a closing
   * fence, gives back exactly the body.
   */
  lemma FenceRoundTrip(tag: string, body: string)
    requires '\n' !in tag
    ensures FenceStripped(Fence + tag + Newline + body + Newline + Fence) == Ok(body)
  {
    FencedAnswerKept(tag, body);
    FenceKept();
    FenceOneLine();
    UnfenceRoundTrip(Fence, tag, body);
  }

  /** The parser's verdict, as `json.loads`: `None` for text that is not JSON. */
  type Parser = string -> Option<Json>

  /** `analyze_with_claude` after the call: the answer unfenced and parsed, a parse failure being a `ValueError`. */
  function ParsedAnswer(answer: string, parse: Parser): (r: Result<Json>)
    ensures FenceStripped(answer).Ok? && parse(FenceStripped(answer).value).None? ==> r == Err(ValueError)
    ensures r.Ok? ==> FenceStripped(answer).Ok? && parse(FenceStripped(answer).value) == Some(r.value)
    ensures FenceStripped(answer).Err? ==> r == Err(FenceStripped(answer).error)
  {
    match FenceStripped(answer)
    case Err(e) => Err(e)
    case Ok(text) =>
      match parse(text)
      case None => Err(ValueError)
      case Some(j) => Ok(j)
  }
}
