/**
 * Cleaning of an LLM reply before `json.loads`, as the planner and the dependency agent both
 * do it: strip white space, drop a leading "```json" and a trailing "```" fence, strip again.
 */
module Response {
  import opened Text

  const OpenFence := "```json"
  const CloseFence := "```"

  /** The text `json.loads` is given for the reply `raw`. */
  function Cleaned(raw: string): (r: string)
    ensures IsStripped(r)
  {
    var s := Strip(raw);
    var s := if StartsWith(s, OpenFence) then s[|OpenFence|..] else s;
    var s := if EndsWith(s, CloseFence) then s[..|s| - |CloseFence|] else s;
    Strip(s)
  }

  /** The reassignments of `response`, one statement per step. */
  method CleanResponse(raw: string) returns (response: string)
    ensures response == Cleaned(raw)
  {
    response := Strip(raw);
    if StartsWith(response, OpenFence) {
      response := response[7..];
    }
    if EndsWith(response, CloseFence) {
      response := response[..|response| - 3];
    }
    response := Strip(response);
  }

  /** A fenced reply, with any white space around the fences, yields the stripped body. */
  lemma FencedReply(pre: string, body: string, post: string)
    requires AllSpace(pre) && AllSpace(post)
    ensures Cleaned(pre + OpenFence + body + CloseFence + post) == Strip(body)
  {
    var fenced := OpenFence + body + CloseFence;
    FencedIsStripped(body);
    assert pre + OpenFence + body + CloseFence + post == pre + fenced + post;
    StripPadded(pre, fenced, post);
    CutFences(body);
  }

  /** A fenced text starts and ends with a backtick, so the first strip leaves it as it is. */
  lemma FencedIsStripped(body: string)
    ensures IsStripped(OpenFence + body + CloseFence)
  {
    var fenced := OpenFence + body + CloseFence;
    assert fenced[0] == '`' && fenced[|fenced| - 1] == '`';
  }

  /** Cutting the two fences off a fenced text leaves the body. */
  lemma CutFences(body: string)
    ensures var fenced := OpenFence + body + CloseFence;
            && StartsWith(fenced, OpenFence)
            && fenced[|OpenFence|..] == body + CloseFence
            && EndsWith(body + CloseFence, CloseFence)
            && (body + CloseFence)[..|body|] == body
  {
    var fenced := OpenFence + body + CloseFence;
    assert fenced[..|OpenFence|] == OpenFence;
    assert fenced[|OpenFence|..] == body + CloseFence;
    var rest := body + CloseFence;
    assert rest[|rest| - |CloseFence|..] == CloseFence;
  }

  /** A bare reply with no fence at either end yields itself, without the white space around it. */
  lemma BareReply(pre: string, json: string, post: string)
    requires AllSpace(pre) && AllSpace(post) && IsStripped(json)
    requires !StartsWith(json, OpenFence) && !EndsWith(json, CloseFence)
    ensures Cleaned(pre + json + post) == json
  {
    StripPadded(pre, json, post);
    StripPadded([], json, []);
    assert [] + json + [] == json;
  }

  /** Only an opening fence: the body after it is kept. */
  lemma OpenFenceOnly(body: string)
    requires IsStripped(body) && body != [] && body[|body| - 1] != '`'
    ensures Cleaned(OpenFence + body) == Strip(body)
  {
    var s := OpenFence + body;
    OpenedIsStripped(body);
    StripPadded([], s, []);
    assert [] + s + [] == s;
    assert s[..|OpenFence|] == OpenFence;
    assert s[|OpenFence|..] == body;
    NotClosed(body);
  }

  /** The opening fence followed by a stripped body has no white space at either end. */
  lemma OpenedIsStripped(body: string)
    requires IsStripped(body) && body != []
    ensures IsStripped(OpenFence + body)
  {
    var s := OpenFence + body;
    assert s[0] == '`' && s[|s| - 1] == body[|body| - 1];
  }

  /** A text whose last character is not a backtick does not end with the closing fence. */
  lemma NotClosed(body: string)
    requires body != [] && body[|body| - 1] != '`'
    ensures !EndsWith(body, CloseFence)
  {
    if |body| >= |CloseFence| {
      assert body[|body| - |CloseFence|..][2] == body[|body| - 1];
    }
  }
}
