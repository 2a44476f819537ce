/**
 * The prompt and model configuration editor of
 * src/components/PromptConfigPanel.tsx: five editable fields initialised
 * from browser storage or the defaults, a reset to the defaults, and a save
 * that builds the model configuration, adding `response_format` only for
 * the models that support it.
 *
 * The temperature and the token limit are edited as text; converting
 * numbers to text and back (`toString`, `parseFloat`, `parseInt`) is done
 * by functions passed in.
 */
module PromptConfig {
  import opened Common
  import opened Settings
  import TextAnalysis

  /** This panel's own list of the models that accept a `response_format`. */
  const JsonFormatModels := [
    "gpt-4-1106-preview",
    "gpt-4-0125-preview",
    "gpt-4-turbo-preview",
    "gpt-3.5-turbo-1106",
    "gpt-3.5-turbo-0125"
  ]

  predicate SupportsJsonFormat(model: string) {
    model in JsonFormatModels
  }

  /** The panel and the request builder keep the same list of models. */
  lemma WhitelistsAgree()
    ensures JsonFormatModels == TextAnalysis.JsonFormatModels
    ensures forall model :: SupportsJsonFormat(model) <==> TextAnalysis.SupportsJsonFormat(model)
  {
  }

  /** `(0.7).toString()` and `(2000).toString()`. */
  const DefaultTemperatureText := "0.7"
  const DefaultMaxTokensText := "2000"

  /** What "save" hands over. */
  datatype SavedConfig = SavedConfig(systemPrompt: string, analysisPrompt: string, modelConfig: ModelConfig)

  /** The configuration "save" builds: `{ type: "json_object" }` is present exactly for a listed model. */
  function BuildModelConfig(model: string, temperature: real, maxTokens: int): (c: ModelConfig)
    ensures c.model == model && c.temperature == temperature && c.maxTokens == maxTokens
    ensures c.responseFormat.Some? <==> SupportsJsonFormat(model)
    ensures c.responseFormat.Some? ==> c.responseFormat.value == JsonObject
  {
    ModelConfig(model, temperature, maxTokens, if SupportsJsonFormat(model) then Some(JsonObject) else None)
  }

  /** A saved configuration goes through the request builder's stripping unchanged. */
  lemma SavedConfigSurvivesStripping(model: string, temperature: real, maxTokens: int)
    ensures TextAnalysis.StripResponseFormat(BuildModelConfig(model, temperature, maxTokens))
         == BuildModelConfig(model, temperature, maxTokens)
  {
  }

  /** Saving right after a reset rebuilds the default configuration, JSON format included. */
  lemma ResetThenSaveRebuildsDefaults(parseFloat: string -> real, parseInt: string -> int)
    requires parseFloat(DefaultTemperatureText) == DefaultTemperature
    requires parseInt(DefaultMaxTokensText) == DefaultMaxTokens
    ensures BuildModelConfig(DefaultModel, parseFloat(DefaultTemperatureText), parseInt(DefaultMaxTokensText))
         == DefaultModelConfig
  {
  }

  /** The state of one mounted configuration panel. */
  class ConfigPanel {
    var systemPrompt: string
    var analysisPrompt: string
    var model: string
    var temperature: string
    var maxTokens: string

    /**
     * Lines 30-49: stored prompts win when non-empty; a stored model
     * configuration, when there is one, supplies the model and the two
     * numbers as text, and the defaults do otherwise.
     */
    constructor (storedSystemPrompt: Stored, storedAnalysisPrompt: Stored, storedModelConfig: StoredConfig,
                 realToText: real -> string, intToText: int -> string)
      requires storedModelConfig != Unparsable
      ensures systemPrompt == OrDefault(storedSystemPrompt, DefaultSystemPrompt)
      ensures analysisPrompt == OrDefault(storedAnalysisPrompt, DefaultAnalysisPrompt)
      ensures storedModelConfig == NotStored ==>
        model == DefaultModel && temperature == DefaultTemperatureText && maxTokens == DefaultMaxTokensText
      ensures storedModelConfig.Parsed? ==>
        && model == storedModelConfig.config.model
        && temperature == realToText(storedModelConfig.config.temperature)
        && maxTokens == intToText(storedModelConfig.config.maxTokens)
    {
      systemPrompt := OrDefault(storedSystemPrompt, DefaultSystemPrompt);
      analysisPrompt := OrDefault(storedAnalysisPrompt, DefaultAnalysisPrompt);
      if storedModelConfig.Parsed? {
        var parsed := storedModelConfig.config;
        model := parsed.model;
        temperature := realToText(parsed.temperature);
        maxTokens := intToText(parsed.maxTokens);
      } else {
        model := DefaultModel;
        temperature := DefaultTemperatureText;
        maxTokens := DefaultMaxTokensText;
      }
    }

    method HandleReset()
      modifies this
      ensures systemPrompt == DefaultSystemPrompt && analysisPrompt == DefaultAnalysisPrompt
      ensures model == DefaultModel && temperature == DefaultTemperatureText && maxTokens == DefaultMaxTokensText
    {
      systemPrompt := DefaultSystemPrompt;
      analysisPrompt := DefaultAnalysisPrompt;
      model := DefaultModel;
      temperature := DefaultTemperatureText;
      maxTokens := DefaultMaxTokensText;
    }

    /** Lines 59-90: build the configuration and hand it over with the two prompts as held. */
    method HandleSave(parseFloat: string -> real, parseInt: string -> int) returns (saved: SavedConfig)
      ensures saved.systemPrompt == systemPrompt && saved.analysisPrompt == analysisPrompt
      ensures saved.modelConfig == BuildModelConfig(model, parseFloat(temperature), parseInt(maxTokens))
    {
      var supportsJsonFormat := model in JsonFormatModels;
      var modelConfig := ModelConfig(model, parseFloat(temperature), parseInt(maxTokens), None);
      if supportsJsonFormat {
        modelConfig := modelConfig.(responseFormat := Some(JsonObject));
      }
      saved := SavedConfig(systemPrompt, analysisPrompt, modelConfig);
    }

    method SetSystemPrompt(value: string)
      modifies this
      ensures systemPrompt == value
      ensures analysisPrompt == old(analysisPrompt) && model == old(model)
      ensures temperature == old(temperature) && maxTokens == old(maxTokens)
    {
      systemPrompt := value;
    }

    method SetAnalysisPrompt(value: string)
      modifies this
      ensures analysisPrompt == value
      ensures systemPrompt == old(systemPrompt) && model == old(model)
      ensures temperature == old(temperature) && maxTokens == old(maxTokens)
    {
      analysisPrompt := value;
    }

    method SetModel(value: string)
      modifies this
      ensures model == value
      ensures systemPrompt == old(systemPrompt) && analysisPrompt == old(analysisPrompt)
      ensures temperature == old(temperature) && maxTokens == old(maxTokens)
    {
      model := value;
    }

    method SetTemperature(value: string)
      modifies this
      ensures temperature == value
      ensures systemPrompt == old(systemPrompt) && analysisPrompt == old(analysisPrompt)
      ensures model == old(model) && maxTokens == old(maxTokens)
    {
      temperature := value;
    }

    method SetMaxTokens(value: string)
      modifies this
      ensures maxTokens == value
      ensures systemPrompt == old(systemPrompt) && analysisPrompt == old(analysisPrompt)
      ensures model == old(model) && temperature == old(temperature)
    {
      maxTokens := value;
    }
  }
}
