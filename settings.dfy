/**
 * The configuration values shared by the analysis request, the prompt
 * configuration panel and the training panel: the defaults of
 * src/lib/promptConfig.ts, the shape of a model configuration, the shape
 * of a training example, and the `stored || default` selection that every
 * reader of browser storage uses.
 */
module Settings {
  import opened Common

  /** The default system prompt. Its text is a fixed prompt and is opaque here. */
  const DefaultSystemPrompt: string

  /** The default analysis prompt. Its text is a fixed prompt and is opaque here. */
  const DefaultAnalysisPrompt: string

  /** `{ type: "json_object" }`, the only response format the code ever builds. */
  datatype ResponseFormat = ResponseFormat(kind: string)

  const JsonObject := ResponseFormat("json_object")

  /**
   * A model configuration as sent with a completion request. An absent
   * `response_format` key is `None`.
   */
  datatype ModelConfig = ModelConfig(
    model: string,
    temperature: real,
    maxTokens: int,
    responseFormat: Option<ResponseFormat>)

  /** The default model configuration. */
  const DefaultModel := "gpt-3.5-turbo-1106"
  const DefaultTemperature := 0.7
  const DefaultMaxTokens := 2000
  const DefaultModelConfig := ModelConfig(DefaultModel, DefaultTemperature, DefaultMaxTokens, Some(JsonObject))

  /** One few-shot training example: a text and the analysis wanted for it. */
  datatype Example = Example(input: string, output: string)

  /** What browser storage holds under a key, read through `getItem`: `null` is `None`. */
  type Stored = Option<string>

  /**
   * `stored || fallback`: JavaScript's `||` treats both `null` and the empty
   * string as absent, so a stored value wins only when it is non-empty.
   */
  function OrDefault(stored: Stored, fallback: string): (r: string)
    ensures r == fallback <==> stored == None || stored.value == "" || stored.value == fallback
    ensures r != fallback ==> stored == Some(r) && r != ""
    ensures stored.Some? && stored.value != "" ==> r == stored.value
  {
    if stored.Some? && stored.value != "" then stored.value else fallback
  }

  /**
   * A stored model configuration: absent (`null` or the empty string, both
   * falsy), present but not valid JSON (so `JSON.parse` throws), or parsed.
   */
  datatype StoredConfig = NotStored | Unparsable | Parsed(config: ModelConfig)
}
