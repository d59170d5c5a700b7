/** The event-extraction route (`app/api/analyze/route.ts`): input check,
    the placeholder answer when no model key is configured, clean-up of the
    model's reply text and the fallback record when the model call or the
    JSON parse fails. The model call and `JSON.parse` are foreign: the call's
    outcome and the parser are parameters. */
module AnalyzeRoute {
  import opened Basics
  import opened Types
  import opened JsStrings

  /** The length of the fence match starting at position `i` of `s`, 0 when
      there is none. The first alternative ("```json" with an optional
      newline) is tried before the second (an optional newline, then "```"),
      and each takes its optional newline when it can. */
  function FenceAt(s: string, i: nat): (k: nat)
    requires i <= |s|
    ensures i + k <= |s|
    ensures k > 0 ==> s[i] == '`' || (s[i] == '\n' && i + 1 < |s| && s[i + 1] == '`')
  {
    if i + 7 <= |s| && s[i] == '`' && s[i + 1] == '`' && s[i + 2] == '`'
       && s[i + 3] == 'j' && s[i + 4] == 's' && s[i + 5] == 'o' && s[i + 6] == 'n' then
      (if i + 8 <= |s| && s[i + 7] == '\n' then 8 else 7)
    else if i + 4 <= |s| && s[i] == '\n' && s[i + 1] == '`' && s[i + 2] == '`' && s[i + 3] == '`' then 4
    else if i + 3 <= |s| && s[i] == '`' && s[i + 1] == '`' && s[i + 2] == '`' then 3
    else 0
  }

  /** `text.replace(/```json\n?|\n?```/g, "")` from position `i` on: scanning
      left to right, a match at the current position is dropped and scanning
      resumes after it; any other character is kept. */
  function StripFrom(s: string, i: nat): (r: string)
    requires i <= |s|
    ensures |r| <= |s| - i
    decreases |s| - i
  {
    if i == |s| then ""
    else if FenceAt(s, i) > 0 then StripFrom(s, i + FenceAt(s, i))
    else [s[i]] + StripFrom(s, i + 1)
  }

  /** The fence removal over the whole text. */
  function StripFences(s: string): (r: string)
    ensures |r| <= |s|
  {
    StripFrom(s, 0)
  }

  /** A position holding neither a backtick nor a newline followed by one
      starts no match. */
  lemma NoFenceAt(s: string, i: nat)
    requires i < |s| && s[i] != '`' && (s[i] == '\n' && i + 1 < |s| ==> s[i + 1] != '`')
    ensures FenceAt(s, i) == 0
  {
  }

  /** Where no match starts, the character is kept. */
  lemma KeepAt(s: string, i: nat)
    requires i < |s| && FenceAt(s, i) == 0
    ensures StripFrom(s, i) == [s[i]] + StripFrom(s, i + 1)
  {
  }

  /** No backtick among positions `i` to `j - 1` of `s`, checked one
      position at a time. */
  predicate NoTickIn(s: string, i: nat, j: nat)
    requires i <= j <= |s|
    decreases j - i
  {
    i == j || (s[i] != '`' && NoTickIn(s, i + 1, j))
  }

  /** The position-wise check agrees with the quantified statement. */
  lemma {:induction false} NoTickInFromAll(s: string, i: nat, j: nat)
    requires i <= j <= |s| && forall k :: i <= k < j ==> s[k] != '`'
    ensures NoTickIn(s, i, j)
    decreases j - i
  {
    if i < j {
      NoTickInFromAll(s, i + 1, j);
    }
  }

  /** A run of characters without backticks is copied as it stands, provided
      it does not end in a newline that a following "```" could claim. */
  lemma {:induction false} StripKeptRun(s: string, i: nat, j: nat)
    requires i <= j <= |s| && NoTickIn(s, i, j)
    requires i < j < |s| ==> s[j - 1] != '\n'
    ensures StripFrom(s, i) == s[i..j] + StripFrom(s, j)
    decreases j - i
  {
    if i < j {
      assert i + 1 < j ==> s[i + 1] != '`';
      assert s[i] == '\n' && i + 1 < |s| ==> i + 1 < j;
      NoFenceAt(s, i);
      KeepAt(s, i);
      StripKeptRun(s, i + 1, j);
      assert s[i..j] == [s[i]] + s[i + 1..j];
    }
  }

  /** Every alternative of the pattern contains a backtick, so text without
      one passes through unchanged. */
  lemma StripFencesNoBacktick(s: string)
    requires '`' !in s
    ensures StripFences(s) == s
  {
    NoTickInFromAll(s, 0, |s|);
    StripKeptRun(s, 0, |s|);
    assert s[0..|s|] == s;
  }

  /** The clean-up: fences removed, then trimmed. */
  function Clean(text: string): (r: string)
    ensures |r| <= |text|
    ensures r == [] || (!IsWhitespace(r[0]) && !IsWhitespace(r[|r| - 1]))
  {
    Trim(StripFences(text))
  }

  /** The brace extraction: when the text holds both a '{' and a '}', it is
      cut to `substring(firstBrace, lastBrace + 1)`; otherwise it is kept. */
  function ExtractJson(text: string): (r: string)
    ensures '{' !in text || '}' !in text ==> r == text
  {
    var first := IndexOf(text, '{');
    var last := LastIndexOf(text, '}');
    if first != -1 && last != -1 then Substring(text, first, last + 1) else text
  }

  /** With both braces present, the extraction is the `substring` call. */
  lemma ExtractJsonCuts(text: string)
    requires '{' in text && '}' in text
    ensures 0 <= IndexOf(text, '{') < |text| && 0 <= LastIndexOf(text, '}') < |text|
    ensures ExtractJson(text) == Substring(text, IndexOf(text, '{'), LastIndexOf(text, '}') + 1)
  {
  }

  /** When the first '{' comes before the last '}', the result runs from the
      first '{' through the last '}', so it starts with '{' and ends with '}'. */
  lemma ExtractJsonOrdered(text: string)
    requires '{' in text && '}' in text
    requires IndexOf(text, '{') < LastIndexOf(text, '}')
    ensures var r := ExtractJson(text);
            r == text[IndexOf(text, '{')..LastIndexOf(text, '}') + 1]
            && |r| >= 2 && r[0] == '{' && r[|r| - 1] == '}'
  {
    ExtractJsonCuts(text);
    var first, last := IndexOf(text, '{'), LastIndexOf(text, '}');
    var r := text[first..last + 1];
    assert Substring(text, first, last + 1) == r;
    assert r[0] == text[first] && r[|r| - 1] == text[last];
  }

  /** When the last '}' comes before the first '{', `substring` swaps its
      bounds: the result is the text strictly between the two, and it holds no
      brace of either kind. */
  lemma ExtractJsonReversed(text: string)
    requires '{' in text && '}' in text
    requires LastIndexOf(text, '}') < IndexOf(text, '{')
    ensures var r := ExtractJson(text);
            r == text[LastIndexOf(text, '}') + 1..IndexOf(text, '{')]
            && '{' !in r && '}' !in r
  {
    ExtractJsonCuts(text);
    var first, last := IndexOf(text, '{'), LastIndexOf(text, '}');
    var r := text[last + 1..first];
    assert Substring(text, first, last + 1) == r;
    forall k | 0 <= k < |r| ensures r[k] != '{' && r[k] != '}' {
      assert r[k] == text[last + 1 + k];
    }
  }

  /** The record returned with status 200 when no model key is configured. */
  const Placeholder: EventData := EventData(
    "Summer Tech Mixer", "August 24, 2024", "6:00 PM", "Rooftop 42, San Francisco",
    "Join us for an evening of networking and cocktails.", "casual", "InviteFlow Team")

  /** The record returned with status 500 when the model call or the parse fails. */
  function ServerFallback(rawText: string): (r: EventData)
    ensures r.title == "New Event" && r.date == "TBD" && r.time == "TBD" && r.location == "TBD"
    ensures r.tone == "casual" && r.hostName == "Host"
    ensures |r.description| == (if |rawText| < 100 then |rawText| else 100)
    ensures r.description == rawText[..|r.description|]
  {
    EventData("New Event", "TBD", "TBD", "TBD", Substring(rawText, 0, 100), "casual", "Host")
  }

  /** What the model call did: it threw, or it answered with the text of its
      first candidate part, if there was one. */
  datatype ModelCall = Threw | Answered(text: Option<string>)

  datatype AnalyzeBody = MissingRawText | Fields(data: EventData)

  datatype AnalyzeReply = AnalyzeReply(status: nat, body: AnalyzeBody)

  /** The text handed to `JSON.parse` for a model answer (`|| ""`, clean-up,
      brace extraction). */
  function ParseInput(answer: Option<string>): string {
    ExtractJson(Clean(OrDefault(answer, "")))
  }

  /** The `POST` handler. A missing or empty `rawText` is refused with 400;
      without a key the placeholder comes back with 200; otherwise the parsed
      answer with 200, or the fallback with 500 when anything fails. */
  function Post(rawText: Option<string>, apiKey: Option<string>, call: ModelCall,
                parse: string -> Option<EventData>): (r: AnalyzeReply)
    ensures !Truthy(rawText) ==> r == AnalyzeReply(400, MissingRawText)
    ensures Truthy(rawText) && !Truthy(apiKey) ==> r == AnalyzeReply(200, Fields(Placeholder))
    ensures Truthy(rawText) && Truthy(apiKey) && call.Answered? && parse(ParseInput(call.text)).Some? ==>
              r == AnalyzeReply(200, Fields(parse(ParseInput(call.text)).value))
    ensures Truthy(rawText) && Truthy(apiKey) && (call.Threw? || parse(ParseInput(call.text)).None?) ==>
              r == AnalyzeReply(500, Fields(ServerFallback(rawText.value)))
  {
    if !Truthy(rawText) then AnalyzeReply(400, MissingRawText)
    else if !Truthy(apiKey) then AnalyzeReply(200, Fields(Placeholder))
    else match call
      case Threw => AnalyzeReply(500, Fields(ServerFallback(rawText.value)))
      case Answered(text) =>
        match parse(ParseInput(text))
        case Some(data) => AnalyzeReply(200, Fields(data))
        case None => AnalyzeReply(500, Fields(ServerFallback(rawText.value)))
  }

  /** Without a key the answer does not depend on the model or the parser:
      no call is made. */
  lemma NoKeyNoModelCall(rawText: Option<string>, apiKey: Option<string>,
                         c1: ModelCall, c2: ModelCall,
                         p1: string -> Option<EventData>, p2: string -> Option<EventData>)
    requires !Truthy(apiKey)
    ensures Post(rawText, apiKey, c1, p1) == Post(rawText, apiKey, c2, p2)
  {
  }

  /** The fence around a backtick-free text is removed and nothing else. */
  lemma FencedTextStripped(obj: string)
    requires '`' !in obj && (obj == [] || obj[|obj| - 1] != '\n')
    ensures StripFences("```json\n" + obj + "\n```") == obj
  {
    var t := "```json\n" + obj + "\n```";
    var n := |obj|;
    assert |t| == n + 12;
    assert FenceAt(t, 0) == 8 by {
      assert t[0] == '`' && t[1] == '`' && t[2] == '`' && t[3] == 'j';
      assert t[4] == 's' && t[5] == 'o' && t[6] == 'n' && t[7] == '\n';
    }
    assert t[8..8 + n] == obj;
    forall k | 8 <= k < 8 + n ensures t[k] != '`' {
      assert t[k] == obj[k - 8];
    }
    NoTickInFromAll(t, 8, 8 + n);
    assert 8 < 8 + n < |t| ==> t[8 + n - 1] == obj[n - 1];
    StripKeptRun(t, 8, 8 + n);
    assert FenceAt(t, 8 + n) == 4 by {
      assert t[8 + n] == '\n' && t[9 + n] == '`' && t[10 + n] == '`' && t[11 + n] == '`';
    }
    assert StripFrom(t, n + 12) == [];
    assert obj + [] == obj;
  }

  /** Text that does not start or end with whitespace trims to itself. */
  lemma TrimKeeps(s: string)
    requires s != [] && !IsWhitespace(s[0]) && !IsWhitespace(s[|s| - 1])
    ensures Trim(s) == s
  {
    assert TrimStart(s) == s;
    assert TrimEnd(s) == s;
  }

  /** An object text is its own extraction. */
  lemma ExtractWhole(obj: string)
    requires |obj| >= 2 && obj[0] == '{' && obj[|obj| - 1] == '}'
    ensures ExtractJson(obj) == obj
  {
    assert IndexOf(obj, '{') == 0;
    assert LastIndexOf(obj, '}') == |obj| - 1;
    assert Substring(obj, 0, |obj|) == obj[0..|obj|] == obj;
  }

  /** A reply wrapped in a json fence with surrounding whitespace reaches the
      parser as exactly the object text. */
  lemma FencedReplyReachesParser(obj: string)
    requires |obj| >= 2 && obj[0] == '{' && obj[|obj| - 1] == '}'
    requires '`' !in obj
    ensures ParseInput(Some("```json\n" + obj + "\n```")) == obj
  {
    var t := "```json\n" + obj + "\n```";
    FencedTextStripped(obj);
    TrimKeeps(obj);
    ExtractWhole(obj);
    assert OrDefault(Some(t), "") == t;
  }
}
