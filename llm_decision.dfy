/** The LLM decision engine: the reply of the language model is parsed line by
    line into an action, a confidence and a one-sentence reasoning.  The HTTP
    call to the model is an input (`Reply`). */
module LlmDecision {
  import opened Basics
  import opened Text
  import Indicators

  datatype Action = Buy | Sell | Wait

  datatype Decision = Decision(action: Action, confidence: int, reasoning: string)

  /** The decision before any line of the reply is read. */
  const Default: Decision := Decision(Wait, 5, "Unable to parse response")

  /** The three accepted action words, already upper-cased. */
  function ParseAction(word: string): (a: Option<Action>)
    ensures a == Some(Buy) <==> word == "BUY"
    ensures a == Some(Sell) <==> word == "SELL"
    ensures a == Some(Wait) <==> word == "WAIT"
  {
    if word == "BUY" then Some(Buy)
    else if word == "SELL" then Some(Sell)
    else if word == "WAIT" then Some(Wait)
    else None
  }

  /** `max(1, min(10, conf))` */
  function ClampConfidence(conf: int): (c: int)
    ensures 1 <= c <= 10
    ensures 1 <= conf <= 10 ==> c == conf
    ensures conf < 1 ==> c == 1
    ensures conf > 10 ==> c == 10
  {
    var upper := if 10 < conf then 10 else conf;
    if 1 < upper then upper else 1
  }

  /** `line.split(':', 1)[1].strip()`: the stripped text after the first colon. */
  function ValueAfterColon(line: string): string
    requires ':' in line
  {
    Strip(AfterFirst(line, ':'))
  }

  lemma KeyHasColon(line: string, key: string)
    requires StartsWith(line, key) && |key| > 0 && key[|key| - 1] == ':'
    ensures ':' in line
  {
    assert line[|key| - 1] == key[|key| - 1];
  }

  /** The integer a CONFIDENCE line carries, or None where Python's `int()`
      or the `[0]` of an empty `split()` raises (the bare `except` then
      keeps the previous confidence). */
  function ConfidenceValue(line: string): Option<int>
    requires ':' in line
  {
    match FirstToken(ValueAfterColon(line))
    case None => None
    case Some(token) => ParseInt(token)
  }

  /** An ACTION line sets the action when its word is one of the three. */
  function ApplyAction(d: Decision, line: string): Decision
    requires ':' in line
  {
    match ParseAction(Upper(ValueAfterColon(line)))
    case None => d
    case Some(a) => d.(action := a)
  }

  /** A CONFIDENCE line sets the clamped confidence when it carries an integer. */
  function ApplyConfidence(d: Decision, line: string): Decision
    requires ':' in line
  {
    match ConfidenceValue(line)
    case None => d
    case Some(c) => d.(confidence := ClampConfidence(c))
  }

  /** A line starts with at most one of the three keys. */
  lemma KeysDistinct(line: string)
    ensures StartsWith(line, "REASONING:") ==> !StartsWith(line, "ACTION:") && !StartsWith(line, "CONFIDENCE:")
    ensures StartsWith(line, "CONFIDENCE:") ==> !StartsWith(line, "ACTION:")
  {
    if StartsWith(line, "REASONING:") {
      assert line[0] == 'R';
    }
    if StartsWith(line, "CONFIDENCE:") {
      assert line[0] == 'C';
    }
  }

  /** One iteration of the parsing loop.  The three keys are tested in order
      with `startswith`. */
  function ApplyLine(d: Decision, line: string): Decision {
    if StartsWith(line, "ACTION:") then
      KeyHasColon(line, "ACTION:");
      ApplyAction(d, line)
    else if StartsWith(line, "CONFIDENCE:") then
      KeyHasColon(line, "CONFIDENCE:");
      ApplyConfidence(d, line)
    else if StartsWith(line, "REASONING:") then
      KeyHasColon(line, "REASONING:");
      d.(reasoning := ValueAfterColon(line))
    else d
  }

  /** The decision after reading `lines` in order, starting from `d`. */
  function ApplyLines(d: Decision, lines: seq<string>): Decision {
    if lines == [] then d else ApplyLine(ApplyLines(d, lines[..|lines| - 1]), lines[|lines| - 1])
  }

  /** `response.strip().split('\n')` */
  function ReplyLines(response: string): seq<string> {
    SplitOn(Strip(response), '\n')
  }

  /** The decision `_parse_decision` returns for a reply. */
  function ParsedDecision(response: string): Decision {
    ApplyLines(Default, ReplyLines(response))
  }

  /** `_parse_decision`: the loop applies the lines one by one. */
  method ParseDecision(response: string) returns (d: Decision)
    ensures d == ParsedDecision(response)
  {
    var lines := ReplyLines(response);
    d := Default;
    var i := 0;
    while i < |lines|
      invariant 0 <= i <= |lines|
      invariant d == ApplyLines(Default, lines[..i])
    {
      ApplyLinesStep(Default, lines, i);
      d := ParseLine(d, lines[i]);
      i := i + 1;
    }
    assert lines[..|lines|] == lines;
  }

  lemma ApplyLinesStep(d: Decision, lines: seq<string>, i: nat)
    requires i < |lines|
    ensures ApplyLines(d, lines[..i + 1]) == ApplyLine(ApplyLines(d, lines[..i]), lines[i])
  {
    assert lines[..i + 1][..i] == lines[..i];
  }

  /** The body of the parsing loop for one line. */
  method ParseLine(d: Decision, line: string) returns (next: Decision)
    ensures next == ApplyLine(d, line)
  {
    next := d;
    if StartsWith(line, "ACTION:") {
      KeyHasColon(line, "ACTION:");
      var action := ParseAction(Upper(ValueAfterColon(line)));
      if action.Some? {
        next := next.(action := action.value);
      }
    } else if StartsWith(line, "CONFIDENCE:") {
      KeyHasColon(line, "CONFIDENCE:");
      var conf := ConfidenceValue(line);
      if conf.Some? {
        next := next.(confidence := ClampConfidence(conf.value));
      }
    } else if StartsWith(line, "REASONING:") {
      KeyHasColon(line, "REASONING:");
      next := next.(reasoning := ValueAfterColon(line));
    }
  }

  // ---------------------------------------------------------------------
  // Properties of the parser
  // ---------------------------------------------------------------------

  predicate ConfidenceInRange(d: Decision) {
    1 <= d.confidence <= 10
  }

  lemma ApplyLineKeepsConfidence(d: Decision, line: string)
    requires ConfidenceInRange(d)
    ensures ConfidenceInRange(ApplyLine(d, line))
  {
    if StartsWith(line, "ACTION:") {
      KeyHasColon(line, "ACTION:");
      assert ApplyLine(d, line).confidence == ApplyAction(d, line).confidence == d.confidence;
    } else if StartsWith(line, "CONFIDENCE:") {
      KeyHasColon(line, "CONFIDENCE:");
      assert ApplyLine(d, line) == ApplyConfidence(d, line);
    }
  }

  /** Reading lines never takes the confidence out of [1, 10]. */
  lemma {:induction false} ApplyLinesKeepsConfidence(d: Decision, lines: seq<string>)
    requires ConfidenceInRange(d)
    ensures ConfidenceInRange(ApplyLines(d, lines))
  {
    if lines != [] {
      ApplyLinesKeepsConfidence(d, lines[..|lines| - 1]);
      ApplyLineKeepsConfidence(ApplyLines(d, lines[..|lines| - 1]), lines[|lines| - 1]);
    }
  }

  /** Whatever the model answers, the parsed confidence lies in [1, 10]. */
  lemma ParsedConfidenceInRange(response: string)
    ensures 1 <= ParsedDecision(response).confidence <= 10
  {
    ApplyLinesKeepsConfidence(Default, ReplyLines(response));
  }

  predicate IsKeyLine(line: string) {
    StartsWith(line, "ACTION:") || StartsWith(line, "CONFIDENCE:") || StartsWith(line, "REASONING:")
  }

  /** Lines that start with none of the three keys change nothing. */
  lemma {:induction false} OtherLinesIgnored(d: Decision, lines: seq<string>)
    requires forall k :: 0 <= k < |lines| ==> !IsKeyLine(lines[k])
    ensures ApplyLines(d, lines) == d
  {
    if lines != [] {
      OtherLinesIgnored(d, lines[..|lines| - 1]);
    }
  }

  /** A reply without any key line yields WAIT with confidence 5. */
  lemma NoKeyLinesGiveDefault(response: string)
    requires forall k :: 0 <= k < |ReplyLines(response)| ==> !IsKeyLine(ReplyLines(response)[k])
    ensures ParsedDecision(response) == Decision(Wait, 5, "Unable to parse response")
  {
    OtherLinesIgnored(Default, ReplyLines(response));
  }

  /** Only REASONING lines touch the reasoning. */
  lemma {:induction false} ReasoningOnlyFromReasoningLines(d: Decision, lines: seq<string>)
    requires forall k :: 0 <= k < |lines| ==> !StartsWith(lines[k], "REASONING:")
    ensures ApplyLines(d, lines).reasoning == d.reasoning
  {
    if lines != [] {
      ReasoningOnlyFromReasoningLines(d, lines[..|lines| - 1]);
    }
  }

  lemma ReasoningLine(d: Decision, line: string)
    requires StartsWith(line, "REASONING:")
    ensures ':' in line
    ensures ApplyLine(d, line).reasoning == ValueAfterColon(line)
  {
    KeyHasColon(line, "REASONING:");
    KeysDistinct(line);
  }

  lemma OtherLineKeepsReasoning(d: Decision, line: string)
    requires !StartsWith(line, "REASONING:")
    ensures ApplyLine(d, line).reasoning == d.reasoning
  {
  }

  /** The last REASONING line wins: later lines of other kinds leave it alone. */
  lemma {:induction false} LastReasoningWins(d: Decision, lines: seq<string>, k: nat)
    requires k < |lines| && StartsWith(lines[k], "REASONING:")
    requires forall j :: k < j < |lines| ==> !StartsWith(lines[j], "REASONING:")
    ensures ':' in lines[k]
    ensures ApplyLines(d, lines).reasoning == ValueAfterColon(lines[k])
  {
    var init := lines[..|lines| - 1];
    assert ApplyLines(d, lines) == ApplyLine(ApplyLines(d, init), lines[|lines| - 1]);
    if k == |lines| - 1 {
      ReasoningLine(ApplyLines(d, init), lines[k]);
    } else {
      assert init[k] == lines[k];
      LastReasoningWins(d, init, k);
      OtherLineKeepsReasoning(ApplyLines(d, init), lines[|lines| - 1]);
    }
  }

  /** The value of a key line is everything after the key's colon, stripped:
      further colons belong to the value. */
  lemma ValueAfterKey(key: string, rest: string)
    requires key == "ACTION:" || key == "CONFIDENCE:" || key == "REASONING:"
    ensures StartsWith(key + rest, key)
    ensures ':' in key + rest && ValueAfterColon(key + rest) == Strip(rest)
  {
    assert (key + rest)[..|key|] == key;
    AfterFirstOfKey(key, rest, ':');
  }

  /** An ACTION line sets the action when its word, stripped and upper-cased,
      is BUY, SELL or WAIT, and otherwise changes nothing. */
  lemma ActionLine(d: Decision, rest: string)
    ensures Upper(Strip(rest)) == "BUY" ==> ApplyLine(d, "ACTION:" + rest) == d.(action := Buy)
    ensures Upper(Strip(rest)) == "SELL" ==> ApplyLine(d, "ACTION:" + rest) == d.(action := Sell)
    ensures Upper(Strip(rest)) == "WAIT" ==> ApplyLine(d, "ACTION:" + rest) == d.(action := Wait)
    ensures Upper(Strip(rest)) !in {"BUY", "SELL", "WAIT"} ==> ApplyLine(d, "ACTION:" + rest) == d
  {
    ValueAfterKey("ACTION:", rest);
  }

  /** A CONFIDENCE line whose first word is a rendered integer sets the
      confidence to that integer clamped to [1, 10]; one without any word
      changes nothing. */
  lemma ConfidenceLine(d: Decision, rest: string, n: int)
    ensures FirstToken(Strip(rest)) == Some(IntToString(n))
            ==> ApplyLine(d, "CONFIDENCE:" + rest) == d.(confidence := ClampConfidence(n))
    ensures FirstToken(Strip(rest)).None? ==> ApplyLine(d, "CONFIDENCE:" + rest) == d
  {
    var line := "CONFIDENCE:" + rest;
    ValueAfterKey("CONFIDENCE:", rest);
    KeysDistinct(line);
    ParseIntOfIntToString(n);
    assert ConfidenceValue(line) == (match FirstToken(Strip(rest)) case None => None case Some(t) => ParseInt(t));
  }

  /** A REASONING line replaces the reasoning with the rest of the line. */
  lemma ReasoningLineValue(d: Decision, rest: string)
    ensures ApplyLine(d, "REASONING:" + rest) == d.(reasoning := Strip(rest))
  {
    var line := "REASONING:" + rest;
    ValueAfterKey("REASONING:", rest);
    KeysDistinct(line);
  }

  // ---------------------------------------------------------------------
  // analyze_opportunity
  // ---------------------------------------------------------------------

  /** What the call to the model gives: its reply text, or an exception
      (HTTP error, timeout, malformed JSON) with its message. */
  datatype Reply = Replied(text: string) | CallFailed(message: string)

  /** `analyze_opportunity`.  The prompt is built before the `try` and
      divides the ATR by the price, so a zero price raises to the caller
      (None).  A failed call gives WAIT with confidence 0, which no parsed
      reply can have. */
  function AnalyzeOpportunity(ind: Indicators.Indicators, reply: Reply): (r: Option<Decision>)
    ensures r.None? <==> ind.price == 0.0
    ensures r.Some? ==> 0 <= r.value.confidence <= 10
    ensures r.Some? ==> (r.value.confidence == 0 <==> reply.CallFailed?)
    ensures r.Some? && reply.CallFailed? ==> r.value == Decision(Wait, 0, "Error: " + reply.message)
    ensures r.Some? && reply.Replied? ==> r.value == ParsedDecision(reply.text)
  {
    if ind.price == 0.0 then None
    else match reply
      case CallFailed(message) => Some(Decision(Wait, 0, "Error: " + message))
      case Replied(text) =>
        ParsedConfidenceInRange(text);
        Some(ParsedDecision(text))
  }
}
