/**
 * The script route: turn the requested video length into a word count,
 * build the completion prompt from it and the description, and return the
 * trimmed completion text. The chat-completion service is a parameter.
 */
module Script {
  import opened Results
  import JsText

  /** The own entries of the route's length-to-words table. */
  const WordCounts: map<string, nat> := map["15s" := 50, "1m" := 200, "5min" := 1000]

  const DefaultWordCount: nat := 50

  /**
   * Property lookup on a JavaScript object literal, as the table is written:
   * besides its own entries it inherits the members of Object.prototype.
   */
  datatype JsValue = Undefined | Number(value: nat) | NativeFunction(name: string) | PrototypeObject

  /** Methods every object literal inherits from Object.prototype. */
  const InheritedMethods: set<string> := {
    "constructor", "hasOwnProperty", "isPrototypeOf", "propertyIsEnumerable",
    "toLocaleString", "toString", "valueOf",
    "__defineGetter__", "__defineSetter__", "__lookupGetter__", "__lookupSetter__"
  }

  /** `mapping[videoLength]` on the object literal. */
  function LookupAsWritten(videoLength: string): JsValue
  {
    if videoLength in WordCounts then Number(WordCounts[videoLength])
    else if videoLength in InheritedMethods then NativeFunction(videoLength)
    else if videoLength == "__proto__" then PrototypeObject
    else Undefined
  }

  predicate Truthy(v: JsValue)
  {
    match v
    case Undefined => false
    case Number(n) => n != 0
    case _ => true
  }

  /** `mapping[videoLength] || 50` as written. */
  function WordCountAsWritten(videoLength: string): JsValue
  {
    var v := LookupAsWritten(videoLength);
    if Truthy(v) then v else Number(DefaultWordCount)
  }

  /** An inherited key is truthy, so the fallback never applies and the "word count" is a function. */
  lemma InheritedKeyBypassesFallback()
    ensures WordCountAsWritten("toString") == NativeFunction("toString")
    ensures !WordCountAsWritten("toString").Number?
  {
    assert "toString" !in WordCounts;
  }

  /** The intended word count: the table's own entry for the label, else 50. */
  function WordCount(videoLength: string): (n: nat)
    ensures n in {50, 200, 1000}
    ensures videoLength !in WordCounts ==> n == DefaultWordCount
  {
    if videoLength in WordCounts && WordCounts[videoLength] != 0 then WordCounts[videoLength]
    else DefaultWordCount
  }

  /** The three labels the client offers and their word counts. */
  lemma WordCountLabels()
    ensures WordCount("15s") == 50 && WordCount("1m") == 200 && WordCount("5min") == 1000
  {
  }

  /** Apart from the inherited keys, the intended count is what the code computes. */
  lemma WordCountMatchesAsWritten(videoLength: string)
    requires videoLength !in InheritedMethods && videoLength != "__proto__"
    ensures WordCountAsWritten(videoLength) == Number(WordCount(videoLength))
  {
  }

  const PromptHead := "Generate a natural-sounding script for a YouTube video that is around "
  const PromptMiddle := " words, the description is: "

  /** The prompt sent to the completion service. */
  function Prompt(wordCount: nat, description: string): string
  {
    PromptHead + JsText.Decimal(wordCount) + PromptMiddle + description
  }

  /**
   * The prompt carries the word count and the description verbatim: both can
   * be read back from it, so different inputs never give the same prompt.
   */
  lemma PromptDeterminesInputs(n1: nat, d1: string, n2: nat, d2: string)
    requires Prompt(n1, d1) == Prompt(n2, d2)
    ensures n1 == n2 && d1 == d2
  {
    var s1, s2 := JsText.Decimal(n1), JsText.Decimal(n2);
    PromptShape(n1, d1);
    PromptShape(n2, d2);
    DropCommonPrefix(PromptHead, s1 + (PromptMiddle + d1), s2 + (PromptMiddle + d2));
    DigitsEndAtSpace(s1, s2, PromptMiddle + d1, PromptMiddle + d2);
    SplitAtSameLength(s1, PromptMiddle + d1, s2, PromptMiddle + d2);
    DropCommonPrefix(PromptMiddle, d1, d2);
    JsText.DecimalRoundTrip(n1);
    JsText.DecimalRoundTrip(n2);
  }

  lemma PromptShape(n: nat, d: string)
    ensures Prompt(n, d) == PromptHead + (JsText.Decimal(n) + (PromptMiddle + d))
  {
  }

  lemma DropCommonPrefix(h: string, t1: string, t2: string)
    requires h + t1 == h + t2
    ensures t1 == t2
  {
    assert t1 == (h + t1)[|h|..];
    assert t2 == (h + t2)[|h|..];
  }

  lemma SplitAtSameLength(a1: string, b1: string, a2: string, b2: string)
    requires a1 + b1 == a2 + b2 && |a1| == |a2|
    ensures a1 == a2 && b1 == b2
  {
    assert a1 == (a1 + b1)[..|a1|];
    assert a2 == (a2 + b2)[..|a2|];
    assert b1 == (a1 + b1)[|a1|..];
    assert b2 == (a2 + b2)[|a2|..];
  }

  /** Digits followed by text that starts with a space: the digits end where the first space is. */
  lemma DigitsEndAtSpace(s1: string, s2: string, t1: string, t2: string)
    requires forall k :: 0 <= k < |s1| ==> JsText.IsDigit(s1[k])
    requires forall k :: 0 <= k < |s2| ==> JsText.IsDigit(s2[k])
    requires t1 != [] && t1[0] == ' ' && t2 != [] && t2[0] == ' '
    requires s1 + t1 == s2 + t2
    ensures |s1| == |s2|
  {
    var t := s1 + t1;
    assert t[|s1|] == ' ';
    assert t[|s2|] == ' ';
  }

  const ChatModel := "gpt-4o"
  const MaxTokens: nat := 2048

  datatype Message = Message(role: string, content: string)

  datatype ChatRequest = ChatRequest(model: string, messages: seq<Message>, maxTokens: nat)

  /** A completion call either rejects or returns its choices, each with possibly absent content. */
  datatype CompletionReply = CompletionRejected | Completion(choices: seq<Option<string>>)

  /** The HTTP answer. */
  datatype Response = ScriptBody(script: string) | ServerError

  function ChatRequestFor(description: string, videoLength: string): ChatRequest
  {
    ChatRequest(ChatModel, [Message("user", Prompt(WordCount(videoLength), description))], MaxTokens)
  }

  /**
   * `content?.trim() || ""`: the trimmed content, or empty when there is none;
   * the result has no whitespace at either end.
   */
  function ScriptText(content: Option<string>): (script: string)
    ensures content.None? ==> script == ""
    ensures content.Some? ==> script == JsText.Trim(content.value)
    ensures JsText.Trimmed(script)
  {
    if content.Some? then JsText.Trim(content.value) else ""
  }

  /** The returned script is already trimmed: trimming it again changes nothing. */
  lemma ScriptTextIsTrimmed(content: Option<string>)
    ensures JsText.Trim(ScriptText(content)) == ScriptText(content)
  {
    JsText.TrimFixesTrimmed(ScriptText(content));
  }

  /** The route, given the completion service. */
  function GenerateScript(complete: ChatRequest -> CompletionReply, description: string, videoLength: string): Response
  {
    match complete(ChatRequestFor(description, videoLength))
    case CompletionRejected => ServerError
    case Completion(choices) =>
      if choices == [] then ServerError  // choices[0].message throws
      else ScriptBody(ScriptText(choices[0]))
  }

  /**
   * The route answers with a script exactly when the service replies with at
   * least one choice, and the script is then the first choice's trimmed content.
   * The request asks for the fixed model and token budget with a single user
   * message carrying the word count and the description.
   */
  lemma GenerateScriptOutcome(complete: ChatRequest -> CompletionReply, description: string, videoLength: string)
    ensures var request := ChatRequestFor(description, videoLength);
            && request.model == "gpt-4o" && request.maxTokens == 2048
            && |request.messages| == 1 && request.messages[0].role == "user"
            && request.messages[0].content == Prompt(WordCount(videoLength), description)
    ensures var reply := complete(ChatRequestFor(description, videoLength));
            GenerateScript(complete, description, videoLength).ScriptBody?
            <==> reply.Completion? && reply.choices != []
    ensures var reply := complete(ChatRequestFor(description, videoLength));
            GenerateScript(complete, description, videoLength).ScriptBody? ==>
              GenerateScript(complete, description, videoLength).script == ScriptText(reply.choices[0])
  {
  }
}
