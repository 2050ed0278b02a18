/**
 * The deterministic part of `backend/services/ai_service.py`: routing a prompt
 * to a model, choosing a provider and falling back between providers, pulling
 * a JSON candidate out of a free-text reply, completing a decoded reply with the
 * required fields, and the fixed payloads returned when the reply does not
 * decode. Provider replies and the JSON decoder are parameters.
 */
module AiService {
  import opened Wrappers
  import opened Json
  import opened Text

  // ---------------------------------------------------------------------------
  // Model routing

  const Llama := "meta-llama/llama-3.1-8b-instruct:free"
  const DeepSeekR1 := "deepseek/deepseek-r1:free"
  const DeepSeekQwen := "deepseek/deepseek-r1-0528-qwen3-8b:free"
  const Mistral := "mistralai/mistral-7b-instruct:free"

  /** The OpenRouter models the service knows. */
  const Models: seq<string> := [Llama, DeepSeekR1, DeepSeekQwen, Mistral]

  const AnalysisWords: seq<string> := ["analyze", "extract", "complex", "detailed"]
  const ReasoningWords: seq<string> := ["reason", "logic", "step", "problem"]
  const WritingWords: seq<string> := ["write", "generate", "create", "draft"]

  /** Python `any(word in text for word in words)`. */
  predicate MentionsAny(text: string, words: seq<string>) {
    exists i | 0 <= i < |words| :: Contains(text, words[i])
  }

  /** The routing table, in the order the groups are tried. */
  const RoutingGroups: seq<(seq<string>, string)> := [(AnalysisWords, Llama), (ReasoningWords, DeepSeekR1), (WritingWords, Mistral)]

  /** Reference reading of the routing: the model of the first group the text mentions, else the default. */
  function FirstMatchingGroup(text: string, groups: seq<(seq<string>, string)>, default: string): (m: string)
    ensures m == default || exists g | 0 <= g < |groups| :: m == groups[g].1
    ensures (forall g :: 0 <= g < |groups| ==> !MentionsAny(text, groups[g].0)) ==> m == default
  {
    if groups == [] then default
    else if MentionsAny(text, groups[0].0) then groups[0].1
    else
      var m := FirstMatchingGroup(text, groups[1..], default);
      assert m != default ==> exists g | 0 <= g < |groups| :: m == groups[g].1 by {
        if m != default {
          var g :| 0 <= g < |groups[1..]| && m == groups[1..][g].1;
          assert m == groups[g + 1].1;
        }
      }
      m
  }

  /** `_select_best_model`: keyword groups on the lower-cased prompt, first match wins. */
  function SelectBestModel(prompt: string): (m: string)
    ensures m in Models
    ensures m != DeepSeekQwen
  {
    var p := Lower(prompt);
    if MentionsAny(p, AnalysisWords) then Llama
    else if MentionsAny(p, ReasoningWords) then DeepSeekR1
    else if MentionsAny(p, WritingWords) then Mistral
    else Llama
  }

  /** The routing is exactly the first-match reading of the routing table, with Llama as the default. */
  lemma SelectBestModelIsFirstMatch(prompt: string)
    ensures SelectBestModel(prompt) == FirstMatchingGroup(Lower(prompt), RoutingGroups, Llama)
  {
    var p := Lower(prompt);
    var g1 := [(ReasoningWords, DeepSeekR1), (WritingWords, Mistral)];
    var g2 := [(WritingWords, Mistral)];
    assert RoutingGroups[1..] == g1 && g1[1..] == g2 && g2[1..] == [];
    assert FirstMatchingGroup(p, g2, Llama) == if MentionsAny(p, WritingWords) then Mistral else Llama;
    assert FirstMatchingGroup(p, g1, Llama) ==
      if MentionsAny(p, ReasoningWords) then DeepSeekR1 else FirstMatchingGroup(p, g2, Llama);
  }

  /** A prompt that mentions an analysis word goes to Llama whatever else it mentions. */
  lemma AnalysisWordsWin(prompt: string, i: nat)
    requires i < |AnalysisWords| && Contains(Lower(prompt), AnalysisWords[i])
    ensures SelectBestModel(prompt) == Llama
  {
  }

  // ---------------------------------------------------------------------------
  // Provider routing for `generate_completion`

  datatype Provider = OpenRouter(model: string) | Gemini

  /** The providers called, in order, and what the caller finally gets: a text or a raised error. */
  datatype Completion = Completion(reply: Result<string, string>, calls: seq<Provider>)

  /** A provider's outcome for the `k`-th call of one request. */
  type Replies = (Provider, nat) -> Result<string, string>

  const NoService := "No AI service available"

  /** The model preference after "auto" has been resolved. */
  function ResolvedModel(prompt: string, preference: string): (m: string)
    ensures preference == "auto" ==> m in Models
    ensures preference != "auto" ==> m == preference
  {
    if preference == "auto" then SelectBestModel(prompt) else preference
  }

  /**
   * `generate_completion`: OpenRouter when it has a key and the model is
   * known, else Gemini when it is configured, else the "no service" error; on
   * any failure a (further) Gemini call is made when Gemini is configured and
   * the preference is not "gemini", otherwise the error is re-raised.
   */
  function GenerateCompletion(prompt: string, preference: string, openrouterKey: bool, geminiConfigured: bool,
                              replies: Replies): (c: Completion)
    ensures var m := ResolvedModel(prompt, preference);
      && (c.calls == [] <==> !(openrouterKey && m in Models) && !geminiConfigured)
      && (c.calls == [] ==> c.reply == Err(NoService))
      && (c.calls != [] ==> c.reply == replies(c.calls[|c.calls| - 1], |c.calls| - 1))
      && (c.calls != [] && c.calls[0].OpenRouter? <==> openrouterKey && m in Models)
      && (c.calls != [] && c.calls[0].OpenRouter? ==> c.calls[0].model == m)
      && |c.calls| <= 2
      && (|c.calls| == 2 <==> c.calls != [] && replies(c.calls[0], 0).Err? && geminiConfigured && m != "gemini")
      && (|c.calls| == 2 ==> c.calls[1] == Gemini)
      && (Gemini in c.calls ==> geminiConfigured)
  {
    var m := ResolvedModel(prompt, preference);
    var first :=
      if openrouterKey && m in Models then Completion(replies(OpenRouter(m), 0), [OpenRouter(m)])
      else if geminiConfigured then Completion(replies(Gemini, 0), [Gemini])
      else Completion(Err(NoService), []);
    if first.reply.Err? && geminiConfigured && m != "gemini" then
      Completion(replies(Gemini, |first.calls|), first.calls + [Gemini])
    else first
  }

  /** An error reaches the caller only when Gemini is absent, the preference is "gemini", or Gemini itself failed. */
  lemma CompletionReraisesOnlyWithoutFallback(prompt: string, preference: string, openrouterKey: bool,
                                              geminiConfigured: bool, replies: Replies)
    requires GenerateCompletion(prompt, preference, openrouterKey, geminiConfigured, replies).reply.Err?
    ensures var c := GenerateCompletion(prompt, preference, openrouterKey, geminiConfigured, replies);
      !geminiConfigured || ResolvedModel(prompt, preference) == "gemini" ||
      (c.calls[|c.calls| - 1] == Gemini && replies(Gemini, |c.calls| - 1).Err?)
  {
  }

  /** With "auto" the resolved model is never "gemini", so a configured Gemini always gets the last word. */
  lemma AutoAlwaysFallsBackToGemini(prompt: string, openrouterKey: bool, replies: Replies)
    requires openrouterKey && replies(OpenRouter(SelectBestModel(prompt)), 0).Err?
    ensures GenerateCompletion(prompt, "auto", openrouterKey, true, replies).calls ==
            [OpenRouter(SelectBestModel(prompt)), Gemini]
  {
    assert SelectBestModel(prompt) != "gemini";
  }

  // ---------------------------------------------------------------------------
  // Reply text for the analysis entry points: Gemini first, OpenRouter (Llama) on any Gemini error

  function AcquireText(geminiConfigured: bool, replies: Replies): (c: Completion)
    ensures |c.calls| >= 1 && c.reply == replies(c.calls[|c.calls| - 1], |c.calls| - 1)
    ensures c.calls[0] == Gemini <==> geminiConfigured
    ensures OpenRouter(Llama) in c.calls <==> !geminiConfigured || replies(Gemini, 0).Err?
    ensures forall k :: 0 <= k < |c.calls| && c.calls[k].OpenRouter? ==> c.calls[k].model == Llama && k == |c.calls| - 1
  {
    if geminiConfigured then
      (match replies(Gemini, 0)
       case Ok(t) => Completion(Ok(t), [Gemini])
       case Err(_) => Completion(replies(OpenRouter(Llama), 1), [Gemini, OpenRouter(Llama)]))
    else Completion(replies(OpenRouter(Llama), 0), [OpenRouter(Llama)])
  }

  // ---------------------------------------------------------------------------
  // Extracting the JSON candidate from reply text

  const JsonFence := "```json"
  const Fence := "```"

  /** The reply text reduced to the part handed to the decoder. */
  function ExtractJsonCandidate(text: string): (r: string)
    ensures !Contains(text, JsonFence) && !Contains(text, "{") ==> r == text
  {
    if Contains(text, JsonFence) then
      var start := Find(text, JsonFence) + |JsonFence|;
      Strip(Slice(text, start, FindFrom(text, Fence, start)))
    else if Contains(text, "{") then
      Slice(text, Find(text, "{"), RFind(text, "}") + 1)
    else text
  }

  predicate FirstAt(s: string, pat: string, i: int) {
    IsAt(s, pat, i) && forall k :: 0 <= k < i ==> !IsAt(s, pat, k)
  }

  /** A fenced block closed by a later fence: the stripped text between the marker and that fence, which
      itself holds no fence. */
  lemma ExtractFenced(text: string, i: nat, j: nat)
    requires FirstAt(text, JsonFence, i)
    requires i + |JsonFence| <= j && IsAt(text, Fence, j)
    requires forall k :: i + |JsonFence| <= k < j ==> !IsAt(text, Fence, k)
    ensures ExtractJsonCandidate(text) == Strip(text[i + |JsonFence|..j])
    ensures !Contains(text[i + |JsonFence|..j], Fence)
  {
    var body := text[i + 7..j];
    assert Contains(text, JsonFence);
    FindIsFirst(text, JsonFence);
    assert Find(text, JsonFence) == i;
    FindFromIsFirst(text, Fence, i + 7);
    assert FindFrom(text, Fence, i + 7) == j;
    if Contains(body, Fence) {
      var k :| 0 <= k <= |body| - 3 && IsAt(body, Fence, k);
      assert text[i + 7 + k..i + 7 + k + 3] == body[k..k + 3];
      assert IsAt(text, Fence, i + 7 + k);
    }
  }

  /** A fenced block with no closing fence: `find` gives -1, so the slice stops one character short of the
      end of the text. */
  lemma ExtractUnclosed(text: string, i: nat)
    requires FirstAt(text, JsonFence, i)
    requires forall k :: i + |JsonFence| <= k ==> !IsAt(text, Fence, k)
    ensures ExtractJsonCandidate(text) ==
            (if i + |JsonFence| < |text| - 1 then Strip(text[i + |JsonFence|..|text| - 1]) else [])
  {
    assert Contains(text, JsonFence);
    FindIsFirst(text, JsonFence);
    assert Find(text, JsonFence) == i;
    FindFromIsFirst(text, Fence, i + 7);
    assert FindFrom(text, Fence, i + 7) == -1;
    assert i + 7 <= |text|;
    assert SliceBound(i + 7, |text|) == i + 7;
    assert SliceBound(-1, |text|) == |text| - 1;
    assert ExtractJsonCandidate(text) == Strip(Slice(text, i + 7, -1));
  }

  /** No fence but a brace: from the first "{" through the last "}", or nothing when no "}" follows it. */
  lemma ExtractBraces(text: string, i: nat)
    requires !Contains(text, JsonFence) && FirstAt(text, "{", i)
    ensures !Contains(text, "}") ==> ExtractJsonCandidate(text) == []
    ensures Contains(text, "}") ==>
      var j := RFind(text, "}");
      IsAt(text, "}", j) && (forall k :: j < k ==> !IsAt(text, "}", k)) &&
      ExtractJsonCandidate(text) == (if i <= j then text[i..j + 1] else [])
    ensures ExtractJsonCandidate(text) != [] ==>
      ExtractJsonCandidate(text)[0] == '{' && ExtractJsonCandidate(text)[|ExtractJsonCandidate(text)| - 1] == '}'
  {
    assert Contains(text, "{");
    FindIsFirst(text, "{");
    assert Find(text, "{") == i;
    RFindIsLast(text, "}");
    var r := ExtractJsonCandidate(text);
    if r != [] {
      var j := RFind(text, "}");
      assert text[i..i + 1] == "{";
      assert text[j..j + 1] == "}";
      assert r[0] == text[i];
      assert r[|r| - 1] == text[j];
    }
  }

  // ---------------------------------------------------------------------------
  // Required fields

  /** The outcome of `json.loads` on the candidate. */
  datatype Decoded = DecodeError | Decoded(value: JsonValue)

  type Decoder = string -> Decoded

  /** A required field and the value it gets when the reply lacks it. */
  type Field = (string, JsonValue)

  const Zero := JFloat("0.0", true)

  const TranscriptFields: seq<Field> :=
    [("insights", JArr([])), ("sentiment_score", Zero), ("key_themes", JArr([])),
     ("summary", JStr("Analysis completed"))]

  const CompetitorFields: seq<Field> :=
    [("executive_summary", JStr("Competitive analysis completed successfully")),
     ("key_updates", JArr([])), ("strategic_recommendations", JArr([]))]

  const ContentFields: seq<Field> :=
    [("content", JStr("Content generated successfully")), ("variations", JArr([]))]

  predicate DistinctNames(fields: seq<Field>) {
    forall i, j :: 0 <= i < j < |fields| ==> fields[i].0 != fields[j].0
  }

  /** The dict after the required-field loop: each field in order, added with its default when absent. */
  function WithDefaults(m: Object, fields: seq<Field>): Object
    decreases |fields|
  {
    if fields == [] then m
    else WithDefaults(if fields[0].0 in m then m else m[fields[0].0 := fields[0].1], fields[1..])
  }

  function Names(fields: seq<Field>): set<string> {
    set i | 0 <= i < |fields| :: fields[i].0
  }

  /** Completing never drops or changes a key, adds exactly the required names, and fills each missing one
      with its default. */
  lemma {:induction false} WithDefaultsSpec(m: Object, fields: seq<Field>)
    requires DistinctNames(fields)
    ensures WithDefaults(m, fields).Keys == m.Keys + Names(fields)
    ensures forall k :: k in m ==> WithDefaults(m, fields)[k] == m[k]
    ensures forall i :: 0 <= i < |fields| && fields[i].0 !in m ==> WithDefaults(m, fields)[fields[i].0] == fields[i].1
    decreases |fields|
  {
    if fields != [] {
      var (name, default) := fields[0];
      var m1 := if name in m then m else m[name := default];
      WithDefaultsSpec(m1, fields[1..]);
      assert Names(fields) == {name} + Names(fields[1..]) by {
        forall x | x in Names(fields) ensures x in {name} + Names(fields[1..]) {
          var i :| 0 <= i < |fields| && fields[i].0 == x;
          if i > 0 { assert fields[1..][i - 1].0 == x; }
        }
      }
      forall i | 0 <= i < |fields| && fields[i].0 !in m
        ensures WithDefaults(m, fields)[fields[i].0] == fields[i].1
      {
        if i > 0 {
          assert fields[1..][i - 1] == fields[i];
          assert fields[i].0 != name;
        }
      }
    }
  }

  /** Completing is idempotent: a completed dict already holds every required field. */
  lemma WithDefaultsIdempotent(m: Object, fields: seq<Field>)
    requires DistinctNames(fields)
    ensures WithDefaults(WithDefaults(m, fields), fields) == WithDefaults(m, fields)
  {
    var r := WithDefaults(m, fields);
    WithDefaultsSpec(m, fields);
    WithDefaultsSpec(r, fields);
    assert forall i :: 0 <= i < |fields| ==> fields[i].0 in r;
    assert WithDefaults(r, fields).Keys == r.Keys;
  }

  /** Every required field is `in` the value (a dict key, a list element or a substring). */
  predicate AllPresent(v: JsonValue, fields: seq<Field>) {
    forall i :: 0 <= i < |fields| ==> Has(v, fields[i].0) == Ok(true)
  }

  const ListAssignError := "list indices must be integers or slices, not str"
  const StrAssignError := "'str' object does not support item assignment"

  /** What the required-field loop does to every decoded value: a dict is completed; a list or a string
      passes unchanged only when it already holds every field, since assigning into it raises; any other
      value raises on the first `in`. */
  function Completed(v: JsonValue, fields: seq<Field>): Result<JsonValue, string> {
    match v
    case JObj(m) => Ok(JObj(WithDefaults(m, fields)))
    case JArr(_) => if AllPresent(v, fields) then Ok(v) else Err(ListAssignError)
    case JStr(_) => if AllPresent(v, fields) then Ok(v) else Err(StrAssignError)
    case _ => if fields == [] then Ok(v) else Err("argument of type '" + TypeName(v) + "' is not iterable")
  }

  /** The `for field in required_fields` loop, mutating the decoded value in place. */
  method FillRequired(analysis: JsonValue, fields: seq<Field>) returns (r: Result<JsonValue, string>)
    ensures r == Completed(analysis, fields)
  {
    var cur := analysis;
    var i := 0;
    while i < |fields|
      invariant 0 <= i <= |fields|
      invariant cur.JObj? <==> analysis.JObj?
      invariant cur.JObj? ==> WithDefaults(cur.fields, fields[i..]) == WithDefaults(analysis.fields, fields)
      invariant !cur.JObj? ==> cur == analysis && forall k :: 0 <= k < i ==> Has(analysis, fields[k].0) == Ok(true)
      invariant Has(cur, "").Err? ==> i == 0
    {
      var (name, default) := fields[i];
      var present := Has(cur, name);
      if present.Err? {
        return Err(present.error);
      }
      if !present.value {
        if cur.JObj? {
          assert fields[i..][1..] == fields[i + 1..];
          cur := JObj(cur.fields[name := default]);
        } else if cur.JArr? {
          return Err(ListAssignError);
        } else {
          return Err(StrAssignError);
        }
      } else if cur.JObj? {
        assert fields[i..][1..] == fields[i + 1..];
      }
      i := i + 1;
    }
    assert fields[i..] == [];
    if cur.JObj? {
      assert WithDefaults(cur.fields, fields[i..]) == cur.fields;
      assert Completed(analysis, fields) == Ok(cur);
    } else if cur.JArr? || cur.JStr? {
      assert AllPresent(analysis, fields);
      assert Completed(analysis, fields) == Ok(cur);
    } else {
      assert fields == [];
    }
    return Ok(cur);
  }

  // ---------------------------------------------------------------------------
  // Fallback payloads returned on a decode error

  function TranscriptFallback(): (r: JsonValue)
    ensures r.JObj? && AllPresent(r, TranscriptFields)
  {
    var r := JObj(map[
      "insights" := JArr([JStr("Transcript analyzed successfully")]),
      "sentiment_score" := Zero,
      "key_themes" := JArr([JStr("Customer feedback")]),
      "pain_points" := JArr([]),
      "feature_requests" := JArr([]),
      "urgency_level" := JStr("medium"),
      "actionable_items" := JArr([JStr("Review transcript for manual analysis")]),
      "customer_segment" := JStr("casual_user"),
      "summary" := JStr("Transcript processed but detailed analysis unavailable")]);
    assert forall i :: 0 <= i < |TranscriptFields| ==> TranscriptFields[i].0 in r.fields;
    r
  }

  function CompetitorFallback(): (r: JsonValue)
    ensures r.JObj? && AllPresent(r, CompetitorFields)
  {
    var r := JObj(map[
      "executive_summary" := JStr("Competitor data analyzed successfully"),
      "key_updates" := JArr([JObj(map[
        "update_type" := JStr("general_analysis"),
        "summary" := JStr("Competitor information processed"),
        "impact_level" := JStr("medium"),
        "implications" := JStr("Requires manual review for detailed insights"),
        "recommended_actions" := JArr([JStr("Review analysis manually"), JStr("Monitor for future updates")]),
        "timeline" := JStr("short_term")])]),
      "market_trends" := JArr([]),
      "strategic_recommendations" := JArr([JObj(map[
        "priority" := JStr("medium"),
        "recommendation" := JStr("Conduct manual review of competitor data"),
        "rationale" := JStr("AI analysis parsing failed, human oversight needed")])]),
      "competitive_positioning" := JObj(map[
        "strengths" := JArr([]), "weaknesses" := JArr([]), "differentiation_opportunities" := JArr([])]),
      "threat_assessment" := JStr("medium"),
      "monitoring_alerts" := JArr([JStr("Continue monitoring competitor")]),
      "confidence_level" := JStr("low")]);
    assert forall i :: 0 <= i < |CompetitorFields| ==> CompetitorFields[i].0 in r.fields;
    r
  }

  /** The fallback title: the content type with underscores as spaces, title-cased, then the title-cased platform. */
  function FallbackTitle(platform: string, contentType: string): (t: string)
    ensures |t| == |contentType| + 5 + |platform|
    ensures t[|contentType|..|contentType| + 5] == " for "
    ensures forall k :: 0 <= k < |contentType| ==> t[k] != '_'
  {
    var head := Title(ReplaceChar(contentType, '_', ' '));
    var tail := Title(platform);
    assert forall k :: 0 <= k < |contentType| ==> head[k] != '_' by {
      forall k | 0 <= k < |contentType| ensures head[k] != '_' {
        TitleAfterAt(ReplaceChar(contentType, '_', ' '), false, k);
      }
    }
    var t := head + " for " + tail;
    assert t[|contentType|..|contentType| + 5] == " for ";
    t
  }

  function ContentFallback(platform: string, contentType: string, source: string): (r: JsonValue)
    ensures r.JObj? && AllPresent(r, ContentFields)
    ensures "title" in r.fields && r.fields["title"] == JStr(FallbackTitle(platform, contentType))
  {
    var excerpt := Take(source, 100);
    var r := JObj(map[
      "title" := JStr(FallbackTitle(platform, contentType)),
      "content" := JStr("Generated content for " + platform + " - " + contentType + ". Source: " + excerpt + "..."),
      "variations" := JArr([JObj(map[
        "style" := JStr("Standard approach"),
        "content" := JStr("Check out our latest update! " + excerpt + "..."),
        "hashtags" := JArr([JStr("#ProductManagement"), JStr("#AI"), JStr("#Innovation")]),
        "cta" := JStr("Learn more about Define Consult")])]),
      "engagement_strategy" := JStr("Optimize posting time for " + platform + " audience"),
      "visual_suggestions" := JStr("Include product screenshots or infographics"),
      "posting_recommendations" := JStr("Follow " + platform + " best practices for maximum reach"),
      "follow_up_ideas" := JArr([JStr("Share user testimonials"), JStr("Post behind-the-scenes content")])]);
    assert forall i :: 0 <= i < |ContentFields| ==> ContentFields[i].0 in r.fields;
    r
  }

  /** Both fallback bodies quote at most the first 100 characters of the source material. */
  lemma ContentFallbackQuotesPrefix(platform: string, contentType: string, source: string)
    ensures var r := ContentFallback(platform, contentType, source).fields;
      var excerpt := Take(source, 100);
      |excerpt| <= 100 && excerpt <= source &&
      r["content"] == JStr("Generated content for " + platform + " - " + contentType + ". Source: " + excerpt + "...") &&
      r["variations"].JArr? && |r["variations"].items| == 1
  {
  }

  // ---------------------------------------------------------------------------
  // The analysis entry points

  /**
   * The shared body of `analyze_transcript`, `analyze_competitor_data` and
   * `generate_content`: reply text from the providers, extraction, decoding,
   * then the required fields, or the fallback on a decode error. Provider
   * errors and errors of the required-field loop propagate.
   */
  method Analyze(geminiConfigured: bool, replies: Replies, decode: Decoder, fields: seq<Field>, fallback: JsonValue)
    returns (r: Result<JsonValue, string>, calls: seq<Provider>)
    ensures calls == AcquireText(geminiConfigured, replies).calls
    ensures r == AnalysisOutcome(AcquireText(geminiConfigured, replies).reply, decode, fields, fallback)
  {
    var c := AcquireText(geminiConfigured, replies);
    calls := c.calls;
    if c.reply.Err? {
      return Err(c.reply.error), calls;
    }
    var resultText := c.reply.value;
    resultText := ExtractJsonCandidate(resultText);
    var decoded := decode(resultText);
    if decoded.DecodeError? {
      return Ok(fallback), calls;
    }
    r := FillRequired(decoded.value, fields);
  }

  /** The specification of `Analyze` from the reply text on. */
  function AnalysisOutcome(text: Result<string, string>, decode: Decoder, fields: seq<Field>, fallback: JsonValue)
    : (r: Result<JsonValue, string>)
    ensures text.Err? ==> r == Err(text.error)
    ensures text.Ok? && decode(ExtractJsonCandidate(text.value)).DecodeError? ==> r == Ok(fallback)
  {
    match text
    case Err(e) => Err(e)
    case Ok(t) =>
      match decode(ExtractJsonCandidate(t))
      case DecodeError => Ok(fallback)
      case Decoded(v) => Completed(v, fields)
  }

  /** Whatever the reply, a successful analysis that is a dict holds every required field; a decode error gives
      the fallback, which holds them too. */
  lemma AnalysisOutcomeHasRequiredFields(text: Result<string, string>, decode: Decoder, fields: seq<Field>,
                                         fallback: JsonValue)
    requires DistinctNames(fields) && fallback.JObj? && AllPresent(fallback, fields)
    requires AnalysisOutcome(text, decode, fields, fallback).Ok?
    ensures var v := AnalysisOutcome(text, decode, fields, fallback).value;
      v.JObj? ==> forall i :: 0 <= i < |fields| ==> fields[i].0 in v.fields
  {
    var v := AnalysisOutcome(text, decode, fields, fallback).value;
    if v.JObj? && text.Ok? {
      match decode(ExtractJsonCandidate(text.value))
      case DecodeError =>
        forall i | 0 <= i < |fields| ensures fields[i].0 in v.fields {
          assert Has(fallback, fields[i].0) == Ok(true);
        }
      case Decoded(d) =>
        WithDefaultsSpec(d.fields, fields);
        assert forall i :: 0 <= i < |fields| ==> fields[i].0 in Names(fields);
    }
  }

  method AnalyzeTranscript(geminiConfigured: bool, replies: Replies, decode: Decoder)
    returns (r: Result<JsonValue, string>, calls: seq<Provider>)
    ensures calls == AcquireText(geminiConfigured, replies).calls
    ensures r == AnalysisOutcome(AcquireText(geminiConfigured, replies).reply, decode, TranscriptFields, TranscriptFallback())
  {
    r, calls := Analyze(geminiConfigured, replies, decode, TranscriptFields, TranscriptFallback());
  }

  method AnalyzeCompetitorData(geminiConfigured: bool, replies: Replies, decode: Decoder)
    returns (r: Result<JsonValue, string>, calls: seq<Provider>)
    ensures calls == AcquireText(geminiConfigured, replies).calls
    ensures r == AnalysisOutcome(AcquireText(geminiConfigured, replies).reply, decode, CompetitorFields, CompetitorFallback())
  {
    r, calls := Analyze(geminiConfigured, replies, decode, CompetitorFields, CompetitorFallback());
  }

  method GenerateContent(platform: string, contentType: string, source: string, geminiConfigured: bool,
                         replies: Replies, decode: Decoder)
    returns (r: Result<JsonValue, string>, calls: seq<Provider>)
    ensures calls == AcquireText(geminiConfigured, replies).calls
    ensures r == AnalysisOutcome(AcquireText(geminiConfigured, replies).reply, decode, ContentFields,
                                 ContentFallback(platform, contentType, source))
  {
    r, calls := Analyze(geminiConfigured, replies, decode, ContentFields, ContentFallback(platform, contentType, source));
  }

  /** The transcript defaults: an existing field keeps its value; a missing list field becomes [], a missing
      score 0.0 and a missing summary "Analysis completed". */
  lemma TranscriptDefaults(m: Object)
    ensures var r := WithDefaults(m, TranscriptFields);
      r.Keys == m.Keys + {"insights", "sentiment_score", "key_themes", "summary"} &&
      (forall k :: k in m ==> r[k] == m[k]) &&
      ("insights" !in m ==> r["insights"] == JArr([])) &&
      ("sentiment_score" !in m ==> r["sentiment_score"] == Zero) &&
      ("key_themes" !in m ==> r["key_themes"] == JArr([])) &&
      ("summary" !in m ==> r["summary"] == JStr("Analysis completed"))
  {
    WithDefaultsSpec(m, TranscriptFields);
    assert Names(TranscriptFields) == {"insights", "sentiment_score", "key_themes", "summary"} by {
      assert TranscriptFields[0].0 == "insights" && TranscriptFields[1].0 == "sentiment_score";
      assert TranscriptFields[2].0 == "key_themes" && TranscriptFields[3].0 == "summary";
    }
    assert TranscriptFields[0].0 == "insights" && TranscriptFields[1].0 == "sentiment_score";
    assert TranscriptFields[2].0 == "key_themes" && TranscriptFields[3].0 == "summary";
  }

  lemma CompetitorDefaults(m: Object)
    ensures var r := WithDefaults(m, CompetitorFields);
      r.Keys == m.Keys + {"executive_summary", "key_updates", "strategic_recommendations"} &&
      (forall k :: k in m ==> r[k] == m[k]) &&
      ("executive_summary" !in m ==> r["executive_summary"] == JStr("Competitive analysis completed successfully")) &&
      ("key_updates" !in m ==> r["key_updates"] == JArr([])) &&
      ("strategic_recommendations" !in m ==> r["strategic_recommendations"] == JArr([]))
  {
    WithDefaultsSpec(m, CompetitorFields);
    assert CompetitorFields[0].0 == "executive_summary" && CompetitorFields[1].0 == "key_updates";
    assert CompetitorFields[2].0 == "strategic_recommendations";
    assert Names(CompetitorFields) == {"executive_summary", "key_updates", "strategic_recommendations"};
  }

  lemma ContentDefaults(m: Object)
    ensures var r := WithDefaults(m, ContentFields);
      r.Keys == m.Keys + {"content", "variations"} &&
      (forall k :: k in m ==> r[k] == m[k]) &&
      ("content" !in m ==> r["content"] == JStr("Content generated successfully")) &&
      ("variations" !in m ==> r["variations"] == JArr([]))
  {
    WithDefaultsSpec(m, ContentFields);
    assert ContentFields[0].0 == "content" && ContentFields[1].0 == "variations";
    assert Names(ContentFields) == {"content", "variations"};
  }
}
