/**
 * The Movies Buddy agent's own logic around the agents runtime: choosing the
 * API key, reading the configuration from the environment, building the
 * message list for a turn, and turning the runtime's outcome into the
 * conversation and reply the caller gets.  The runtime itself is a function
 * parameter from the message list to its outcome.
 */
module MoviesBuddyAgent {
  import opened Wrappers
  import opened PyText
  import opened PyValue

  /** `MissingApiKeyError`, and the `FileNotFoundError` for a missing TVDB server script. */
  datatype AgentError = MissingApiKey | ServerScriptMissing

  /** The names tried for the API key, in order; the last is a misspelling kept for old setups. */
  const ApiKeyNames: seq<string> := ["GEMINI_API_KEY", "GOOGLE_API_KEY", "GEMENI_API_KEY"]
  const MisspelledName: string := "GEMENI_API_KEY"

  const DefaultBaseUrl: string := "https://generativelanguage.googleapis.com/v1beta/openai/"
  const DefaultModel: string := "gemini-2.5-pro"
  const TimeoutReply: string := "Request timed out."
  const FailureReply: string := "The agent failed to run."

  /** The `AGENT_TRACING` values, lower-cased, that turn tracing off. */
  const TracingOffValues: set<string> := {"1", "true", "yes"}

  /** `env.get(name) or os.getenv(name, "")`: the mapping's value unless it is missing or empty, else the process's. */
  function Candidate(env: map<string, string>, osEnv: map<string, string>, name: string): string {
    if name in env && env[name] != [] then env[name] else GetSetting(osEnv, name, "")
  }

  /** The first of `names` with a non-empty candidate value, with that value. */
  function FirstKey(env: map<string, string>, osEnv: map<string, string>, names: seq<string>): Option<(string, string)> {
    if names == [] then None
    else if Candidate(env, osEnv, names[0]) != [] then Some((names[0], Candidate(env, osEnv, names[0])))
    else FirstKey(env, osEnv, names[1..])
  }

  /**
   * FirstKey picks the earliest name whose value is non-empty, returns that
   * value, and finds nothing exactly when every name's value is empty.
   */
  lemma {:induction false} FirstKeyIsFirst(env: map<string, string>, osEnv: map<string, string>, names: seq<string>)
    ensures FirstKey(env, osEnv, names).None? <==> forall k :: 0 <= k < |names| ==> Candidate(env, osEnv, names[k]) == []
    ensures FirstKey(env, osEnv, names).Some? ==>
      var (name, value) := FirstKey(env, osEnv, names).value;
      exists k :: (0 <= k < |names| && names[k] == name && value == Candidate(env, osEnv, name) && value != []
        && forall j :: 0 <= j < k ==> Candidate(env, osEnv, names[j]) == [])
  {
    if names != [] && Candidate(env, osEnv, names[0]) == [] {
      FirstKeyIsFirst(env, osEnv, names[1..]);
      if FirstKey(env, osEnv, names).Some? {
        var (name, value) := FirstKey(env, osEnv, names).value;
        var k :| 0 <= k < |names[1..]| && names[1..][k] == name && value == Candidate(env, osEnv, name) && value != []
          && forall j :: 0 <= j < k ==> Candidate(env, osEnv, names[1..][j]) == [];
        assert names[k + 1] == name;
        assert forall j :: 0 <= j < k + 1 ==> Candidate(env, osEnv, names[j]) == [] by {
          forall j | 0 <= j < k + 1 ensures Candidate(env, osEnv, names[j]) == [] {
            if j > 0 { assert names[j] == names[1..][j - 1]; }
          }
        }
      } else {
        assert forall k :: 0 <= k < |names| ==> Candidate(env, osEnv, names[k]) == [] by {
          forall k | 0 <= k < |names| ensures Candidate(env, osEnv, names[k]) == [] {
            if k > 0 { assert names[k] == names[1..][k - 1]; }
          }
        }
      }
    } else if names != [] {
      assert names[0] == FirstKey(env, osEnv, names).value.0;
    }
  }

  /** The misspelled name is only ever used when both correctly spelled names give nothing. */
  lemma MisspellingIsLastResort(env: map<string, string>, osEnv: map<string, string>)
    requires FirstKey(env, osEnv, ApiKeyNames).Some? && FirstKey(env, osEnv, ApiKeyNames).value.0 == MisspelledName
    ensures Candidate(env, osEnv, "GEMINI_API_KEY") == [] && Candidate(env, osEnv, "GOOGLE_API_KEY") == []
  {
    assert ApiKeyNames[1..][1..] == [MisspelledName];
  }

  /**
   * `_resolve_api_key`: try the names in order and return the first non-empty
   * value, warning when it came from the misspelled name; raise when none has one.
   */
  method ResolveApiKey(env: map<string, string>, osEnv: map<string, string>) returns (r: Result<string, AgentError>, warned: bool)
    ensures r == (if FirstKey(env, osEnv, ApiKeyNames).Some? then Ok(FirstKey(env, osEnv, ApiKeyNames).value.1) else Err(MissingApiKey))
    ensures warned <==> FirstKey(env, osEnv, ApiKeyNames).Some? && FirstKey(env, osEnv, ApiKeyNames).value.0 == MisspelledName
  {
    var i := 0;
    while i < |ApiKeyNames|
      invariant 0 <= i <= |ApiKeyNames|
      invariant FirstKey(env, osEnv, ApiKeyNames) == FirstKey(env, osEnv, ApiKeyNames[i..])
    {
      var name := ApiKeyNames[i];
      var value := Candidate(env, osEnv, name);
      if value != [] {
        return Ok(value), name == MisspelledName;
      }
      assert ApiKeyNames[i..][1..] == ApiKeyNames[i + 1..];
      i := i + 1;
    }
    return Err(MissingApiKey), false;
  }

  /** The module-level base URL, read once from the process environment at import. */
  function ModuleBaseUrl(importEnv: map<string, string>): string {
    GetSetting(importEnv, "GEMINI_BASE_URL", DefaultBaseUrl)
  }

  /** The base URL: the mapping's GEMINI_BASE_URL, else the module-level one. */
  function BaseUrl(env: map<string, string>, importEnv: map<string, string>): (r: string)
    ensures "GEMINI_BASE_URL" in env ==> r == env["GEMINI_BASE_URL"]
    ensures "GEMINI_BASE_URL" !in env && "GEMINI_BASE_URL" in importEnv ==> r == importEnv["GEMINI_BASE_URL"]
    ensures "GEMINI_BASE_URL" !in env && "GEMINI_BASE_URL" !in importEnv ==> r == DefaultBaseUrl
  {
    GetSetting(env, "GEMINI_BASE_URL", ModuleBaseUrl(importEnv))
  }

  /** The model: the mapping's GEMINI_MODEL, else the default model. */
  function ModelId(env: map<string, string>): (r: string)
    ensures "GEMINI_MODEL" in env ==> r == env["GEMINI_MODEL"]
    ensures "GEMINI_MODEL" !in env ==> r == DefaultModel
  {
    GetSetting(env, "GEMINI_MODEL", DefaultModel)
  }

  /** Tracing is off when AGENT_TRACING, default "true", lower-cases to one of "1", "true", "yes". */
  predicate TracingDisabled(env: map<string, string>) {
    Lower(GetSetting(env, "AGENT_TRACING", "true")) in TracingOffValues
  }

  /** Two strings that are equal once ASCII letters are lower-cased. */
  predicate SameIgnoringCase(a: string, b: string) {
    |a| == |b| && forall k :: 0 <= k < |a| ==> LowerChar(a[k]) == LowerChar(b[k])
  }

  /**
   * Tracing is off by default, and otherwise exactly when the setting spells
   * "1", "true" or "yes" in any mix of upper and lower case.
   */
  lemma TracingDisabledIff(env: map<string, string>)
    ensures "AGENT_TRACING" !in env ==> TracingDisabled(env)
    ensures TracingDisabled(env) <==> exists w :: w in TracingOffValues && SameIgnoringCase(GetSetting(env, "AGENT_TRACING", "true"), w)
  {
    var v := GetSetting(env, "AGENT_TRACING", "true");
    forall w | w in TracingOffValues ensures Lower(w) == w {
      LowerOfLower(w);
    }
    assert Lower("true") == "true";
    if TracingDisabled(env) {
      assert SameIgnoringCase(v, Lower(v)) by {
        forall k | 0 <= k < |v| ensures LowerChar(v[k]) == LowerChar(Lower(v)[k]) {
          LowerCharIdempotent(v[k]);
        }
      }
    }
    forall w | w in TracingOffValues && SameIgnoringCase(v, w) ensures Lower(v) == w {
      assert Lower(w) == w;
      assert forall k :: 0 <= k < |w| ==> Lower(v)[k] == Lower(w)[k];
    }
  }

  lemma LowerCharIdempotent(c: char)
    ensures LowerChar(LowerChar(c)) == LowerChar(c)
  {
  }

  /** A string with no upper-case letter is its own lower-case form. */
  lemma LowerOfLower(s: string)
    requires forall k :: 0 <= k < |s| ==> !IsUpper(s[k])
    ensures Lower(s) == s
  {
  }

  /** What `create_movies_buddy_agent` settles on: the key, the endpoint, the model and the tracing flag. */
  datatype AgentConfig = AgentConfig(apiKey: string, baseUrl: string, modelId: string, tracingDisabled: bool)

  /**
   * The configuration for the environments, or the error raised: the API key
   * is resolved first, the server script is looked for after it.
   */
  function AgentSetup(env: map<string, string>, osEnv: map<string, string>, importEnv: map<string, string>, serverScriptPresent: bool)
    : Result<AgentConfig, AgentError>
  {
    match FirstKey(env, osEnv, ApiKeyNames)
    case None => Err(MissingApiKey)
    case Some((_, apiKey)) =>
      if !serverScriptPresent then Err(ServerScriptMissing)
      else Ok(AgentConfig(apiKey, BaseUrl(env, importEnv), ModelId(env), TracingDisabled(env)))
  }

  /**
   * `create_movies_buddy_agent`: resolve the key, read the endpoint, model and
   * tracing flag with their defaults, and require the TVDB server script.
   */
  method CreateMoviesBuddyAgent(env: map<string, string>, osEnv: map<string, string>, importEnv: map<string, string>,
                                serverScriptPresent: bool)
    returns (r: Result<AgentConfig, AgentError>, warned: bool)
    ensures r == AgentSetup(env, osEnv, importEnv, serverScriptPresent)
    ensures warned <==> FirstKey(env, osEnv, ApiKeyNames).Some? && FirstKey(env, osEnv, ApiKeyNames).value.0 == MisspelledName
  {
    var apiKey;
    apiKey, warned := ResolveApiKey(env, osEnv);
    if apiKey.Err? {
      return Err(apiKey.error), warned;
    }
    var baseUrl := GetSetting(env, "GEMINI_BASE_URL", ModuleBaseUrl(importEnv));
    var modelId := GetSetting(env, "GEMINI_MODEL", DefaultModel);
    if !serverScriptPresent {
      return Err(ServerScriptMissing), warned;
    }
    var tracingDisabled := Lower(GetSetting(env, "AGENT_TRACING", "true")) in TracingOffValues;
    r := Ok(AgentConfig(apiKey.value, baseUrl, modelId, tracingDisabled));
  }

  /** A mapping's key is used, and the default tracing setting turns tracing off. */
  lemma SetupDefaults(env: map<string, string>, importEnv: map<string, string>)
    requires Candidate(env, env, "GEMINI_API_KEY") != []
    ensures AgentSetup(env, env, importEnv, true) ==
      Ok(AgentConfig(Candidate(env, env, "GEMINI_API_KEY"), BaseUrl(env, importEnv), ModelId(env), TracingDisabled(env)))
    ensures "AGENT_TRACING" !in env ==> AgentSetup(env, env, importEnv, true).value.tracingDisabled
  {
    TracingDisabledIff(env);
  }

  // ---------------------------------------------------------------------------
  // The reply text

  /** `_extract_final_output` fails where Python would: `.get` on a last message that is not a dict, or a non-str text in the join. */
  datatype OutputError = MessageNotMapping | TextNotString

  /** A content part that holds text: a dict whose "type" is "text". */
  predicate IsTextPart(part: Json) {
    part.JObj? && Get(part.entries, "type") == JStr("text")
  }

  /** `part.get("text", "")` for a text part. */
  function TextOf(part: Json): Json
    requires part.JObj?
  {
    GetOr(part.entries, "text", JStr(""))
  }

  /** `[part.get("text", "") for part in content if isinstance(part, dict) and part.get("type") == "text"]` */
  function TextParts(content: seq<Json>): (r: seq<Json>)
    ensures |r| <= |content|
    ensures forall t :: t in r <==> exists k :: 0 <= k < |content| && IsTextPart(content[k]) && TextOf(content[k]) == t
  {
    if content == [] then []
    else
      var rest := TextParts(content[1..]);
      assert forall k :: 0 < k < |content| ==> content[k] == content[1..][k - 1];
      if IsTextPart(content[0]) then [TextOf(content[0])] + rest else rest
  }

  /** `(part for part in parts if part)`: the truthy parts, in order. */
  function KeptParts(parts: seq<Json>): (r: seq<Json>)
    ensures forall t :: t in r <==> t in parts && Truthy(t)
    ensures IsSubsequence(r, parts)
  {
    if parts == [] then []
    else if Truthy(parts[0]) then [parts[0]] + KeptParts(parts[1..])
    else KeptParts(parts[1..])
  }

  /** The strings of a list whose every element is a str. */
  function Strings(parts: seq<Json>): (r: Option<seq<string>>)
    ensures r.Some? <==> forall k :: 0 <= k < |parts| ==> parts[k].JStr?
    ensures r.Some? ==> |r.value| == |parts| && forall k :: 0 <= k < |parts| ==> r.value[k] == parts[k].s
  {
    if parts == [] then Some([])
    else if !parts[0].JStr? then None
    else
      match Strings(parts[1..])
      case None => None
      case Some(rest) => Some([parts[0].s] + rest)
  }

  /** `"\n".join(...)` over the kept parts, which raises on a part that is not a str. */
  function JoinLines(kept: seq<Json>): Result<string, OutputError> {
    match Strings(kept)
    case None => Err(TextNotString)
    case Some(texts) => Ok(Join(texts, "\n"))
  }

  /**
   * `_extract_final_output`: a non-empty fallback wins; an empty conversation
   * gives ""; otherwise the last message's "content" (default "") decides: a
   * str is returned as it is, a list gives its non-empty texts joined by
   * newlines, anything else gives "".
   */
  function ExtractFinalOutput(conversation: seq<Json>, fallback: string): (r: Result<string, OutputError>)
    ensures fallback != [] ==> r == Ok(fallback)
    ensures fallback == [] && conversation == [] ==> r == Ok("")
    ensures fallback == [] && conversation != [] ==>
      var last := conversation[|conversation| - 1];
      (!last.JObj? ==> r == Err(MessageNotMapping))
      && (last.JObj? && GetOr(last.entries, "content", JStr("")).JStr? ==> r == Ok(GetOr(last.entries, "content", JStr("")).s))
      && (last.JObj? && !GetOr(last.entries, "content", JStr("")).JStr? && !GetOr(last.entries, "content", JStr("")).JList?
          ==> r == Ok(""))
  {
    if fallback != [] then Ok(fallback)
    else if conversation == [] then Ok("")
    else
      var last := conversation[|conversation| - 1];
      if !last.JObj? then Err(MessageNotMapping)
      else
        match GetOr(last.entries, "content", JStr(""))
        case JStr(s) => Ok(s)
        case JList(content) => JoinLines(KeptParts(TextParts(content)))
        case _ => Ok("")
  }

  /** The text parts of two runs of content are those of the first run followed by those of the second. */
  lemma {:induction false} TextPartsAppend(a: seq<Json>, b: seq<Json>)
    ensures TextParts(a + b) == TextParts(a) + TextParts(b)
    ensures |a| == 1 ==> TextParts(a) == (if IsTextPart(a[0]) then [TextOf(a[0])] else [])
  {
    if a == [] {
      assert a + b == b;
    } else {
      assert (a + b)[1..] == a[1..] + b;
      TextPartsAppend(a[1..], b);
    }
  }

  /** The kept parts of two runs are those of the first run followed by those of the second. */
  lemma {:induction false} KeptPartsAppend(a: seq<Json>, b: seq<Json>)
    ensures KeptParts(a + b) == KeptParts(a) + KeptParts(b)
    ensures |a| == 1 ==> KeptParts(a) == (if Truthy(a[0]) then a else [])
  {
    if a == [] {
      assert a + b == b;
    } else {
      assert (a + b)[1..] == a[1..] + b;
      KeptPartsAppend(a[1..], b);
    }
  }

  /** The parts joined are exactly the truthy texts of the text parts. */
  lemma KeptTexts(content: seq<Json>)
    ensures forall t :: t in KeptParts(TextParts(content)) <==>
      (exists k :: 0 <= k < |content| && IsTextPart(content[k]) && TextOf(content[k]) == t) && Truthy(t)
  {
  }

  /** Joining string parts succeeds, and the reply is as long as the parts together plus one newline between each neighbouring pair. */
  lemma JoinLinesLength(kept: seq<Json>)
    requires forall k :: 0 <= k < |kept| ==> kept[k].JStr?
    ensures JoinLines(kept).Ok?
    ensures kept == [] ==> JoinLines(kept).value == ""
    ensures kept != [] ==> |JoinLines(kept).value| == TotalLength(Strings(kept).value) + |kept| - 1
  {
    if kept != [] {
      JoinLength(Strings(kept).value, "\n");
    }
  }

  /**
   * When the last message's content is a list, the reply is the truthy texts
   * of its text parts, in order, joined by newlines; the join raises exactly
   * when one of those texts is not a str.
   */
  lemma ListContentReply(conversation: seq<Json>, content: seq<Json>)
    requires conversation != [] && conversation[|conversation| - 1].JObj?
    requires GetOr(conversation[|conversation| - 1].entries, "content", JStr("")) == JList(content)
    ensures var reply := ExtractFinalOutput(conversation, "");
      && (reply.Ok? <==> forall t :: t in TextParts(content) && Truthy(t) ==> t.JStr?)
      && (reply.Err? ==> reply.error == TextNotString)
    ensures var reply := ExtractFinalOutput(conversation, "");
      var kept := KeptParts(TextParts(content));
      reply.Ok? ==>
        && (forall k :: 0 <= k < |kept| ==> kept[k].JStr? && kept[k].s != [])
        && reply.value == Join(Strings(kept).value, "\n")
  {
    var kept := KeptParts(TextParts(content));
    assert ExtractFinalOutput(conversation, "") == JoinLines(kept);
    if forall t :: t in TextParts(content) && Truthy(t) ==> t.JStr? {
      forall k | 0 <= k < |kept| ensures kept[k].JStr? && kept[k].s != [] {
        assert kept[k] in kept;
      }
    } else {
      var t :| t in TextParts(content) && Truthy(t) && !t.JStr?;
      assert t in kept;
      var k :| 0 <= k < |kept| && kept[k] == t;
    }
  }

  /** A text part whose text is `None` is dropped with the empty ones, not joined. */
  lemma NullTextDropped()
    ensures var nullPart := JObj([("type", JStr("text")), ("text", JNull)]);
      var hiPart := JObj([("type", JStr("text")), ("text", JStr("hi"))]);
      ExtractFinalOutput([JObj([("content", JList([nullPart, hiPart]))])], "") == Ok("hi")
  {
    var nullPart := JObj([("type", JStr("text")), ("text", JNull)]);
    var hiPart := JObj([("type", JStr("text")), ("text", JStr("hi"))]);
    var content := [nullPart, hiPart];
    var conversation := [JObj([("content", JList(content))])];
    NullAndHiKept(nullPart, hiPart);
    assert GetOr(conversation[0].entries, "content", JStr("")) == JList(content);
    ListContentReply(conversation, content);
    OneLine("hi");
  }

  /** One str part joins to itself. */
  lemma OneLine(text: string)
    ensures JoinLines([JStr(text)]) == Ok(text)
    ensures Join(Strings([JStr(text)]).value, "\n") == text
  {
    var parts := [JStr(text)];
    assert Strings(parts).Some?;
    assert Strings(parts).value == [text];
  }

  /** Of a null text part and a "hi" one, only "hi" is joined. */
  lemma NullAndHiKept(nullPart: Json, hiPart: Json)
    requires nullPart == JObj([("type", JStr("text")), ("text", JNull)])
    requires hiPart == JObj([("type", JStr("text")), ("text", JStr("hi"))])
    ensures TextParts([nullPart, hiPart]) == [JNull, JStr("hi")]
    ensures KeptParts(TextParts([nullPart, hiPart])) == [JStr("hi")]
  {
    NullAndHiTexts(nullPart, hiPart);
    KeptPartsAppend([JNull], [JStr("hi")]);
    KeptPartsAppend([JStr("hi")], []);
    assert [JNull, JStr("hi")] == [JNull] + [JStr("hi")];
  }

  /** Both parts are text parts, so their texts are collected in order, the null one included. */
  lemma NullAndHiTexts(nullPart: Json, hiPart: Json)
    requires nullPart == JObj([("type", JStr("text")), ("text", JNull)])
    requires hiPart == JObj([("type", JStr("text")), ("text", JStr("hi"))])
    ensures TextParts([nullPart, hiPart]) == [JNull, JStr("hi")]
  {
    TextPartOf(JNull);
    TextPartOf(JStr("hi"));
    TextPartsAppend([nullPart], [hiPart]);
    TextPartsAppend([hiPart], []);
    assert [nullPart, hiPart] == [nullPart] + [hiPart];
  }

  /** A dict with "type" "text" and a given "text" is a text part holding that text. */
  lemma TextPartOf(text: Json)
    ensures IsTextPart(JObj([("type", JStr("text")), ("text", text)]))
    ensures TextOf(JObj([("type", JStr("text")), ("text", text)])) == text
  {
    var entries := [("type", JStr("text")), ("text", text)];
    assert "type" != "text" by { assert "type"[1] != "text"[1]; }
    assert entries[1..] == [("text", text)];
    assert Lookup(entries[1..], "text") == Some(text);
    assert Lookup(entries, "text") == Some(text);
  }

  // ---------------------------------------------------------------------------
  // One turn

  /** `{"role": "user", "content": user_input}` */
  function UserMessage(userInput: string): Json {
    JObj([("role", JStr("user")), ("content", JStr(userInput))])
  }

  /** What the runtime's run comes to: the result's conversation and `final_output` attribute, a timeout, or any other exception. */
  datatype RunOutcome = Completed(conversation: seq<Json>, finalOutput: Option<string>) | TimedOut | Failed

  /** The conversation and the reply text a turn returns; the conversation is a list object the caller can keep. */
  datatype Reply = Reply(conversation: array<Json>, text: string)

  /** The messages of `conversation_history or []`. */
  function HistoryOf(history: Option<array<Json>>): seq<Json>
    reads if history.Some? then {history.value} else {}
  {
    if history.Some? then history.value[..] else []
  }

  /** The message list a turn hands to the runtime. */
  function TurnMessages(history: Option<array<Json>>, userInput: string): (r: seq<Json>)
    reads if history.Some? then {history.value} else {}
    ensures |r| == |HistoryOf(history)| + 1 && r[..|r| - 1] == HistoryOf(history) && r[|r| - 1] == UserMessage(userInput)
  {
    HistoryOf(history) + [UserMessage(userInput)]
  }

  /** `getattr(result, "final_output", "") or ""` */
  function Fallback(finalOutput: Option<string>): string {
    finalOutput.GetOr("")
  }

  /**
   * `list(conversation_history or [])` followed by `append` of the user
   * message: a new list, the caller's left as it was.
   */
  method BuildMessages(history: Option<array<Json>>, userInput: string) returns (messages: array<Json>)
    ensures fresh(messages)
    ensures messages[..] == TurnMessages(history, userInput)
  {
    var previous := if history.Some? then history.value.Length else 0;
    messages := new Json[previous + 1](_ => JNull);
    var i := 0;
    while i < previous
      invariant 0 <= i <= previous
      invariant history.Some? ==> previous == history.value.Length
      invariant messages[..i] == HistoryOf(history)[..i]
      modifies messages
    {
      messages[i] := history.value[i];
      i := i + 1;
    }
    messages[previous] := UserMessage(userInput);
    assert messages[..previous] == HistoryOf(history);
    assert messages[..] == messages[..previous] + [messages[previous]];
  }

  /** How a turn ends: with the runtime's conversation and the extracted reply, or with a fixed reply and the old history. */
  datatype TurnEnd = Answered(conversation: seq<Json>, text: string) | FellBack(text: string)

  /**
   * The ending for a runtime outcome: a timeout replies "Request timed out.";
   * a failed run, or a completed one whose reply cannot be extracted, replies
   * "The agent failed to run.".
   */
  function Ending(outcome: RunOutcome): TurnEnd {
    match outcome
    case TimedOut => FellBack(TimeoutReply)
    case Failed => FellBack(FailureReply)
    case Completed(conversation, finalOutput) =>
      match ExtractFinalOutput(conversation, Fallback(finalOutput))
      case Ok(text) => Answered(conversation, text)
      case Err(_) => FellBack(FailureReply)
  }

  /** `result.to_input_list()`: a new list holding the run's conversation. */
  method NewList(items: seq<Json>) returns (list: array<Json>)
    ensures fresh(list)
    ensures list[..] == items
  {
    list := new Json[|items|](_ => JNull);
    var i := 0;
    while i < |items|
      invariant 0 <= i <= |items|
      invariant list[..i] == items[..i]
      modifies list
    {
      list[i] := items[i];
      i := i + 1;
    }
  }

  /**
   * `run_movies_buddy_agent`: set the agent up (a missing key or server script
   * propagates), run it on the history plus the user message, and return the
   * runtime's conversation with the extracted reply; on a timeout or any other
   * failure return `conversation_history or []` with a fixed reply.
   */
  method RunMoviesBuddyAgent(userInput: string, history: Option<array<Json>>,
                             env: map<string, string>, osEnv: map<string, string>, importEnv: map<string, string>,
                             serverScriptPresent: bool, run: seq<Json> -> RunOutcome)
    returns (r: Result<Reply, AgentError>)
    ensures history.Some? ==> history.value[..] == old(history.value[..])
    ensures AgentSetup(env, osEnv, importEnv, serverScriptPresent).Err? ==>
      r == Err(AgentSetup(env, osEnv, importEnv, serverScriptPresent).error)
    ensures AgentSetup(env, osEnv, importEnv, serverScriptPresent).Ok? ==>
      r.Ok? &&
      var ending := Ending(run(TurnMessages(history, userInput)));
      r.value.text == ending.text &&
      if ending.Answered? then
        fresh(r.value.conversation) && r.value.conversation[..] == ending.conversation
      else if history.Some? && history.value.Length > 0 then
        r.value.conversation == history.value
      else
        fresh(r.value.conversation) && r.value.conversation.Length == 0
  {
    var setup, warned := CreateMoviesBuddyAgent(env, osEnv, importEnv, serverScriptPresent);
    if setup.Err? {
      return Err(setup.error);
    }
    var reply := RunTurn(history, userInput, run);
    r := Ok(reply);
  }

  /**
   * The turn after setup: copy the history and append the user message, run
   * the agent on that, and reply as the ending says.
   */
  method RunTurn(history: Option<array<Json>>, userInput: string, run: seq<Json> -> RunOutcome) returns (reply: Reply)
    ensures history.Some? ==> history.value[..] == old(history.value[..])
    ensures var ending := Ending(run(TurnMessages(history, userInput)));
      reply.text == ending.text &&
      if ending.Answered? then
        fresh(reply.conversation) && reply.conversation[..] == ending.conversation
      else if history.Some? && history.value.Length > 0 then
        reply.conversation == history.value
      else
        fresh(reply.conversation) && reply.conversation.Length == 0
  {
    var messages := BuildMessages(history, userInput);
    var ending := Ending(run(messages[..]));
    if ending.Answered? {
      var conversation := NewList(ending.conversation);
      return Reply(conversation, ending.text);
    }
    var kept;
    if history.Some? && history.value.Length > 0 {
      kept := history.value;
    } else {
      kept := new Json[0];
    }
    reply := Reply(kept, ending.text);
  }
}
