/**
 * The request assembly of `analyzeText` in src/lib/textAnalysis.ts: which
 * prompts and model configuration are used, how `response_format` is
 * dropped for models that do not support it, how the chat message list is
 * built from the system prompt, the few-shot examples and the text, and how
 * the model's reply is turned into a concept list or an error.
 *
 * The completion call itself and `JSON.parse` of its reply are opaque: the
 * reply's content and a parser are inputs.
 */
module TextAnalysis {
  import opened Common
  import opened Settings

  /** The models that accept a `response_format` in the request. */
  const JsonFormatModels := [
    "gpt-4-1106-preview",
    "gpt-4-0125-preview",
    "gpt-4-turbo-preview",
    "gpt-3.5-turbo-1106",
    "gpt-3.5-turbo-0125"
  ]

  predicate SupportsJsonFormat(model: string) {
    model in JsonFormatModels
  }

  /**
   * The configuration actually sent: a copy of `config` without its
   * `response_format` when the model is not in the list.
   */
  function StripResponseFormat(config: ModelConfig): (r: ModelConfig)
    ensures r.(responseFormat := config.responseFormat) == config
    ensures SupportsJsonFormat(config.model) ==> r == config
    ensures !SupportsJsonFormat(config.model) ==> r.responseFormat == None
  {
    if SupportsJsonFormat(config.model) then config else config.(responseFormat := None)
  }

  /** Stripping twice is stripping once, and a stripped config keeps a format only for a listed model. */
  lemma StripIsIdempotent(config: ModelConfig)
    ensures StripResponseFormat(StripResponseFormat(config)) == StripResponseFormat(config)
    ensures StripResponseFormat(config).responseFormat.Some? ==> SupportsJsonFormat(config.model)
  {
  }

  datatype Role = System | User | Assistant

  datatype Message = Message(role: Role, content: string)

  const AssistantPrefix := "Analizaré este texto según el modelo 01234:\n\n"
  const AssistantSuffix := "\n\nAhora traduciré este análisis al formato JSON requerido."

  /** The assistant turn that stands for an example's wanted analysis. */
  function AssistantReply(output: string): string {
    AssistantPrefix + output + AssistantSuffix
  }

  /** `example.input && example.output`: both fields non-empty. */
  predicate Usable(e: Example) {
    e.input != "" && e.output != ""
  }

  /** The usable examples, in their original order. */
  function UsableExamples(examples: seq<Example>): (u: seq<Example>)
    ensures |u| <= |examples|
    ensures forall e :: e in u ==> e in examples && Usable(e)
    decreases |examples|
  {
    if examples == [] then []
    else
      var init := examples[..|examples| - 1];
      var last := examples[|examples| - 1];
      UsableExamples(init) + (if Usable(last) then [last] else [])
  }

  /** Every usable example is kept, as often as it occurs; no other example is. */
  lemma {:induction false} UsableExamplesCounts(examples: seq<Example>)
    ensures forall e :: multiset(UsableExamples(examples))[e] == if Usable(e) then multiset(examples)[e] else 0
    decreases |examples|
  {
    if examples != [] {
      var init := examples[..|examples| - 1];
      assert examples == init + [examples[|examples| - 1]];
      UsableExamplesCounts(init);
    }
  }

  /** Filtering a list with one more example at the end. */
  lemma UsableExamplesSnoc(x: seq<Example>, e: Example)
    ensures UsableExamples(x + [e]) == UsableExamples(x) + (if Usable(e) then [e] else [])
  {
    assert (x + [e])[..|x|] == x;
  }

  /** The examples keep their order: filtering `a + b` filters `a`, then `b`. */
  lemma {:induction false} UsableExamplesInOrder(a: seq<Example>, b: seq<Example>)
    ensures UsableExamples(a + b) == UsableExamples(a) + UsableExamples(b)
    decreases |b|
  {
    if b == [] {
      assert a + b == a;
    } else {
      var init := b[..|b| - 1];
      var last := b[|b| - 1];
      var kept := if Usable(last) then [last] else [];
      calc {
        UsableExamples(a + b);
        { assert a + b == (a + init) + [last]; }
        UsableExamples((a + init) + [last]);
        { UsableExamplesSnoc(a + init, last); }
        UsableExamples(a + init) + kept;
        { UsableExamplesInOrder(a, init); }
        (UsableExamples(a) + UsableExamples(init)) + kept;
        UsableExamples(a) + (UsableExamples(init) + kept);
        { assert b == init + [last]; UsableExamplesSnoc(init, last); }
        UsableExamples(a) + UsableExamples(b);
      }
    }
  }

  /** One example is kept exactly when both of its fields are non-empty. */
  lemma UsableExamplesOne(e: Example)
    ensures UsableExamples([e]) == if Usable(e) then [e] else []
  {
    assert [e][..0] == [];
  }

  /** The message pair one example contributes: none unless both fields are non-empty. */
  function ExampleTurns(e: Example): seq<Message> {
    if Usable(e) then [Message(User, e.input), Message(Assistant, AssistantReply(e.output))] else []
  }

  /** The few-shot messages for `examples`, in order. */
  function ExampleMessages(examples: seq<Example>): seq<Message>
    decreases |examples|
  {
    if examples == [] then []
    else ExampleMessages(examples[..|examples| - 1]) + ExampleTurns(examples[|examples| - 1])
  }

  /**
   * The few-shot messages are exactly the usable examples, each as a user
   * turn holding its input followed by an assistant turn holding its
   * wrapped output.
   */
  lemma {:induction false} ExampleMessagesArePairs(examples: seq<Example>)
    ensures |ExampleMessages(examples)| == 2 * |UsableExamples(examples)|
    ensures forall k :: 0 <= k < |UsableExamples(examples)| ==>
      ExampleMessages(examples)[2 * k] == Message(User, UsableExamples(examples)[k].input) &&
      ExampleMessages(examples)[2 * k + 1] == Message(Assistant, AssistantReply(UsableExamples(examples)[k].output))
    decreases |examples|
  {
    if examples != [] {
      var init := examples[..|examples| - 1];
      var last := examples[|examples| - 1];
      ExampleMessagesArePairs(init);
      assert UsableExamples(examples) == UsableExamples(init) + (if Usable(last) then [last] else []);
      assert ExampleMessages(examples) == ExampleMessages(init) + ExampleTurns(last);
    }
  }

  /** No few-shot message is a system message. */
  lemma {:induction false} ExampleMessagesHaveNoSystem(examples: seq<Example>)
    ensures forall i :: 0 <= i < |ExampleMessages(examples)| ==> ExampleMessages(examples)[i].role != System
    decreases |examples|
  {
    if examples != [] {
      ExampleMessagesHaveNoSystem(examples[..|examples| - 1]);
    }
  }

  /** The examples actually used: `customExamples && customExamples.length > 0`. */
  function GivenExamples(customExamples: Option<seq<Example>>): seq<Example> {
    if customExamples.Some? && |customExamples.value| > 0 then customExamples.value else []
  }

  /**
   * The last user turn: the custom prompt, a blank line and the text when a
   * custom prompt is given and non-empty, otherwise the analysis prompt
   * directly followed by the text.
   */
  function FinalPrompt(analysisPrompt: string, customPrompt: Option<string>, text: string): (r: string)
    ensures customPrompt.Some? && customPrompt.value != "" ==> r == customPrompt.value + "\n\n" + text
    ensures customPrompt.None? || customPrompt.value == "" ==> r == analysisPrompt + text
  {
    if customPrompt.Some? && customPrompt.value != "" then customPrompt.value + "\n\n" + text
    else analysisPrompt + text
  }

  /** The whole message list sent with the request. */
  function Conversation(systemPrompt: string, analysisPrompt: string, text: string,
                        customExamples: Option<seq<Example>>, customPrompt: Option<string>): seq<Message>
  {
    [Message(System, systemPrompt)]
      + ExampleMessages(GivenExamples(customExamples))
      + [Message(User, FinalPrompt(analysisPrompt, customPrompt, text))]
  }

  /**
   * The message list opens with the one system message, holds two messages
   * per usable example, in order, and closes with the user's request.
   */
  lemma ConversationShape(systemPrompt: string, analysisPrompt: string, text: string,
                          customExamples: Option<seq<Example>>, customPrompt: Option<string>)
    ensures var m := Conversation(systemPrompt, analysisPrompt, text, customExamples, customPrompt);
            var u := UsableExamples(GivenExamples(customExamples));
            && |m| == 2 + 2 * |u|
            && m[0] == Message(System, systemPrompt)
            && (forall i :: 0 < i < |m| ==> m[i].role != System)
            && (forall k :: 0 <= k < |u| ==>
                  m[2 * k + 1] == Message(User, u[k].input) &&
                  m[2 * k + 2] == Message(Assistant, AssistantReply(u[k].output)))
            && m[|m| - 1] == Message(User, FinalPrompt(analysisPrompt, customPrompt, text))
  {
    var ex := GivenExamples(customExamples);
    ExampleMessagesArePairs(ex);
    ExampleMessagesHaveNoSystem(ex);
    var m := Conversation(systemPrompt, analysisPrompt, text, customExamples, customPrompt);
    var em := ExampleMessages(ex);
    assert forall i :: 0 < i < |m| - 1 ==> m[i] == em[i - 1];
  }

  /** Lines 72-101: the system message, a `forEach` over the examples pushing pairs, then the request. */
  method BuildMessages(systemPrompt: string, analysisPrompt: string, text: string,
                       customExamples: Option<seq<Example>>, customPrompt: Option<string>)
    returns (messages: seq<Message>)
    ensures messages == Conversation(systemPrompt, analysisPrompt, text, customExamples, customPrompt)
  {
    messages := [Message(System, systemPrompt)];
    if customExamples.Some? && |customExamples.value| > 0 {
      var examples := customExamples.value;
      for i := 0 to |examples|
        invariant messages == [Message(System, systemPrompt)] + ExampleMessages(examples[..i])
      {
        var example := examples[i];
        assert examples[..i + 1][..i] == examples[..i];
        if example.input != "" && example.output != "" {
          messages := messages + [Message(User, example.input)];
          messages := messages + [Message(Assistant, AssistantPrefix + example.output + AssistantSuffix)];
        }
      }
      assert examples[..|examples|] == examples;
    }
    messages := messages + [Message(User, if customPrompt.Some? && customPrompt.value != ""
                                          then customPrompt.value + "\n\n" + text
                                          else analysisPrompt + text)];
  }

  /** What `analyzeText` can fail with. */
  datatype AnalysisError =
    | ClientNotConfigured
    | StoredConfigUnparsable
    | NoResponse
    | ReplyUnparsable

  /** The completion request: the configuration spread in, plus the messages. */
  datatype Request = Request(config: ModelConfig, messages: seq<Message>)

  /** `storedModelConfig ? JSON.parse(storedModelConfig) : DEFAULT_MODEL_CONFIG`. */
  function ChosenConfig(stored: StoredConfig): (r: Result<ModelConfig, AnalysisError>)
    ensures stored == NotStored ==> r == Ok(DefaultModelConfig)
    ensures stored == Unparsable ==> r == Err(StoredConfigUnparsable)
    ensures stored.Parsed? ==> r == Ok(stored.config)
  {
    match stored
    case NotStored => Ok(DefaultModelConfig)
    case Unparsable => Err(StoredConfigUnparsable)
    case Parsed(c) => Ok(c)
  }

  /**
   * Lines 35-101 of `analyzeText`: everything before the completion call.
   * A missing client fails first; a stored configuration that is not JSON
   * fails next; otherwise the request is the chosen configuration,
   * stripped, with the message list.
   */
  method PrepareRequest(clientConfigured: bool, text: string,
                        customExamples: Option<seq<Example>>, customPrompt: Option<string>,
                        storedSystemPrompt: Stored, storedAnalysisPrompt: Stored, storedModelConfig: StoredConfig)
    returns (r: Result<Request, AnalysisError>)
    ensures !clientConfigured ==> r == Err(ClientNotConfigured)
    ensures clientConfigured && storedModelConfig == Unparsable ==> r == Err(StoredConfigUnparsable)
    ensures clientConfigured && storedModelConfig != Unparsable ==>
      && r.Ok?
      && r.value.config == StripResponseFormat(ChosenConfig(storedModelConfig).value)
      && r.value.messages == Conversation(OrDefault(storedSystemPrompt, DefaultSystemPrompt),
                                          OrDefault(storedAnalysisPrompt, DefaultAnalysisPrompt),
                                          text, customExamples, customPrompt)
  {
    if !clientConfigured {
      return Err(ClientNotConfigured);
    }
    var systemPrompt := OrDefault(storedSystemPrompt, DefaultSystemPrompt);
    var analysisPrompt := OrDefault(storedAnalysisPrompt, DefaultAnalysisPrompt);
    var config: ModelConfig;
    match storedModelConfig {
      case NotStored => config := DefaultModelConfig;
      case Unparsable => return Err(StoredConfigUnparsable);
      case Parsed(c) => config := c;
    }
    var modelConfig := config;
    if !(modelConfig.model in JsonFormatModels) {
      modelConfig := modelConfig.(responseFormat := None);
    }
    var messages := BuildMessages(systemPrompt, analysisPrompt, text, customExamples, customPrompt);
    r := Ok(Request(modelConfig, messages));
  }

  /** Without stored settings the request uses the default configuration unchanged, JSON format included. */
  lemma DefaultConfigIsSentWhole()
    ensures StripResponseFormat(DefaultModelConfig) == DefaultModelConfig
    ensures StripResponseFormat(DefaultModelConfig).responseFormat == Some(JsonObject)
  {
  }

  /** What `JSON.parse` of the reply yields: a syntax error, or an object with or without `concepts`. */
  datatype ReplyParse<T> = Malformed | ParsedReply(concepts: Option<seq<T>>)

  /**
   * Lines 108-117: an absent or empty reply is an error, an unparsable one
   * is an error, and a parsed reply without `concepts` gives no concepts.
   */
  function InterpretReply<T>(content: Option<string>, parse: string -> ReplyParse<T>): (r: Result<seq<T>, AnalysisError>)
    ensures content.None? || content.value == "" ==> r == Err(NoResponse)
    ensures r.Ok? ==> content.Some? && content.value != ""
    ensures content.Some? && content.value != "" ==>
      match parse(content.value)
      case Malformed => r == Err(ReplyUnparsable)
      case ParsedReply(None) => r == Ok([])
      case ParsedReply(Some(cs)) => r == Ok(cs)
  {
    if content.None? || content.value == "" then Err(NoResponse)
    else match parse(content.value)
      case Malformed => Err(ReplyUnparsable)
      case ParsedReply(cs) => Ok(if cs.Some? then cs.value else [])
  }
}
