/**
 * The model manager: the table of configured model endpoints, the check that
 * a model is configured, the simulated response a configured model gives
 * (its text composed from the tone, verbosity, web-search and image
 * settings), the simulated quota and the routing of a task to a model.
 */
module ModelManagement {
  import opened Wrappers
  import opened Text
  import opened EgoTypes

  /** The endpoint, authentication header and token limit of one configured model. */
  datatype ModelConfig = ModelConfig(endpoint: string, headerName: string, headerValue: string, maxTokens: nat)

  /** The configurations, in the order the manager registers them. */
  const ConfigEntries: seq<(string, ModelConfig)> := [
    ("gpt-4", ModelConfig("https://api.openai.com/v1/chat/completions", "Authorization", "Bearer YOUR_OPENAI_API_KEY", 4096)),
    ("claude-3-opus", ModelConfig("https://api.anthropic.com/v1/messages", "x-api-key", "YOUR_ANTHROPIC_API_KEY", 4096)),
    ("gemini-pro", ModelConfig("https://generativelanguage.googleapis.com/v1/models/gemini-pro", "Authorization", "Bearer YOUR_GOOGLE_API_KEY", 2048))
  ]

  const ConfiguredIds: set<string> := {"gpt-4", "claude-3-opus", "gemini-pro"}

  /** The map that setting each entry in turn builds; a later entry for the same id wins. */
  function EntriesToMap(entries: seq<(string, ModelConfig)>): (configs: map<string, ModelConfig>)
    ensures forall id :: id in configs <==> exists i :: 0 <= i < |entries| && entries[i].0 == id
    ensures entries != [] ==> configs[entries[|entries| - 1].0] == entries[|entries| - 1].1
  {
    if entries == [] then map[]
    else
      var last := entries[|entries| - 1];
      var configs := EntriesToMap(entries[..|entries| - 1])[last.0 := last.1];
      assert forall id :: id in configs <==> exists i :: 0 <= i < |entries| && entries[i].0 == id by {
        forall id
          ensures id in configs <==> exists i :: 0 <= i < |entries| && entries[i].0 == id
        {
          if id in configs && id != last.0 {
            var i :| 0 <= i < |entries| - 1 && entries[..|entries| - 1][i].0 == id;
            assert entries[i].0 == id;
          }
          if exists i :: 0 <= i < |entries| && entries[i].0 == id {
            var i :| 0 <= i < |entries| && entries[i].0 == id;
            if i < |entries| - 1 {
              assert entries[..|entries| - 1][i].0 == id;
            }
          }
        }
      }
      configs
  }

  /** As with repeated `Map.set`, the value kept for an id is the one of its last entry. */
  lemma {:induction false} LastEntryWins(entries: seq<(string, ModelConfig)>, i: nat)
    requires i < |entries|
    requires forall j :: i < j < |entries| ==> entries[j].0 != entries[i].0
    ensures entries[i].0 in EntriesToMap(entries)
    ensures EntriesToMap(entries)[entries[i].0] == entries[i].1
  {
    if i < |entries| - 1 {
      var front := entries[..|entries| - 1];
      assert front[i] == entries[i];
      forall j | i < j < |front|
        ensures front[j].0 != front[i].0
      {
        assert front[j] == entries[j];
      }
      LastEntryWins(front, i);
    }
  }

  /** The configured ids are exactly gpt-4, claude-3-opus and gemini-pro, with their token limits. */
  lemma ConfigTable()
    ensures forall id :: id in EntriesToMap(ConfigEntries) <==> id in ConfiguredIds
    ensures EntriesToMap(ConfigEntries)["gpt-4"].maxTokens == 4096
    ensures EntriesToMap(ConfigEntries)["claude-3-opus"].maxTokens == 4096
    ensures EntriesToMap(ConfigEntries)["gemini-pro"].maxTokens == 2048
  {
    var m := EntriesToMap(ConfigEntries);
    var m2 := EntriesToMap(ConfigEntries[..2]);
    var m1 := EntriesToMap(ConfigEntries[..1]);
    assert ConfigEntries[..2][..1] == ConfigEntries[..1];
    assert ConfigEntries[..3] == ConfigEntries;
    assert m == m2["gemini-pro" := ConfigEntries[2].1];
    assert m2 == m1["claude-3-opus" := ConfigEntries[1].1];
    assert m1 == map[]["gpt-4" := ConfigEntries[0].1];
  }

  const ToneProfessional: string := "I'll provide a thorough, professional analysis."
  const ExtraContext: string := "Let me provide additional context and detailed explanations to give you a comprehensive understanding of this topic."
  const WebSearchNote: string := "[Web search integration would be active here]"
  const ImageNote: string := "I can see the image you've shared. [Image analysis capabilities would be integrated here]"

  /** The opening sentence of a response in each tone. */
  function ToneModifier(tone: Tone): string {
    match tone
    case Professional => ToneProfessional
    case Casual => "Hey there! Let me break this down for you."
    case Creative => "What an interesting question! Let me explore this creatively."
    case Technical => "From a technical perspective, here's the detailed breakdown:"
    case Friendly => "Great question! I'm happy to help you with this."
  }

  /** `if (imageData)`: an absent or empty image is no image. */
  predicate HasImage(imageData: Option<string>) {
    imageData.Some? && imageData.value != ""
  }

  /** The closing paragraph, naming the model, the temperature as rendered, and the thinking mode. */
  function Footer(modelName: string, temperatureText: string, thinkingMode: bool): string {
    "This is a simulated response from " + modelName + ". Actual AI integration pending API configuration.\n\n"
      + "Model: " + modelName + "\nTemperature: " + temperatureText
      + "\nThinking Mode: " + (if thinkingMode then "Enabled" else "Disabled")
  }

  /** The kinds of paragraph a simulated response is made of. */
  datatype Paragraph =
    | ToneLine(tone: Tone)
    | ExtraContextLine
    | WebSearchLine
    | ImageLine
    | FooterLine(footer: string)

  function Render(p: Paragraph): string {
    match p
    case ToneLine(t) => ToneModifier(t)
    case ExtraContextLine => ExtraContext
    case WebSearchLine => WebSearchNote
    case ImageLine => ImageNote
    case FooterLine(footer) => footer
  }

  /** The extra-context paragraph is added when verbosity is above 50. */
  function WithContext(paragraphs: seq<Paragraph>, verbosity: int): seq<Paragraph> {
    if verbosity > 50 then paragraphs + [ExtraContextLine] else paragraphs
  }

  function WithWebNote(paragraphs: seq<Paragraph>, webSearch: bool): seq<Paragraph> {
    if webSearch then paragraphs + [WebSearchLine] else paragraphs
  }

  function WithImageNote(paragraphs: seq<Paragraph>, imageData: Option<string>): seq<Paragraph> {
    if HasImage(imageData) then paragraphs + [ImageLine] else paragraphs
  }

  /** The paragraphs of a simulated response, added in the order `callModelAPI` adds them. */
  function ResponseParagraphs(model: AIModel, settings: CustomizationSettings, imageData: Option<string>, temperatureText: string): seq<Paragraph> {
    WithImageNote(WithWebNote(WithContext([ToneLine(settings.tone)], settings.verbosity), settings.webSearch), imageData)
      + [FooterLine(Footer(model.name, temperatureText, settings.thinkingMode))]
  }

  /** The rendered paragraphs separated by blank lines. */
  function Compose(paragraphs: seq<Paragraph>): string
    requires |paragraphs| >= 1
  {
    if |paragraphs| == 1 then Render(paragraphs[0])
    else Compose(paragraphs[..|paragraphs| - 1]) + "\n\n" + Render(paragraphs[|paragraphs| - 1])
  }

  /** Appending a paragraph appends a blank line and the paragraph's text. */
  lemma ComposeAppend(paragraphs: seq<Paragraph>, p: Paragraph)
    requires |paragraphs| >= 1
    ensures Compose(paragraphs + [p]) == Compose(paragraphs) + "\n\n" + Render(p)
  {
    assert (paragraphs + [p])[..|paragraphs|] == paragraphs;
  }

  /** The text so far followed by the footer is the composition with the footer paragraph appended. */
  lemma ComposeFooter(paragraphs: seq<Paragraph>, text: string, footer: string)
    requires |paragraphs| >= 1 && text == Compose(paragraphs)
    ensures text + "\n\n" + footer == Compose(paragraphs + [FooterLine(footer)])
  {
    ComposeAppend(paragraphs, FooterLine(footer));
  }

  /** The composed text starts with the first paragraph's text and ends with the last one's. */
  lemma {:induction false} ComposeEnds(paragraphs: seq<Paragraph>)
    requires |paragraphs| >= 1
    ensures StartsWith(Compose(paragraphs), Render(paragraphs[0]))
    ensures EndsWith(Compose(paragraphs), Render(paragraphs[|paragraphs| - 1]))
    decreases |paragraphs|
  {
    if |paragraphs| > 1 {
      var front := paragraphs[..|paragraphs| - 1];
      ComposeEnds(front);
      var head := Compose(front) + "\n\n";
      var last := Render(paragraphs[|paragraphs| - 1]);
      assert Compose(paragraphs) == head + last;
      assert (head + last)[..|Render(front[0])|] == head[..|Render(front[0])|] == Compose(front)[..|Render(front[0])|];
      assert (head + last)[|head + last| - |last|..] == last;
    }
  }

  /** `settings.verbosity / 50 > 1`, evaluated on reals, is `verbosity > 50`. */
  lemma VerbosityThreshold(verbosity: int)
    ensures (verbosity as real) / 50.0 > 1.0 <==> verbosity > 50
  {
    if verbosity > 50 {
      assert (verbosity as real) > 50.0;
    } else {
      assert (verbosity as real) <= 50.0;
    }
  }

  /**
   * The paragraphs open with the tone's sentence and close with the footer;
   * the extra-context paragraph is there iff verbosity is above 50, the
   * web-search note iff web search is on, the image note iff an image is
   * given, and the web-search note comes before the image note.
   */
  lemma ResponseStructure(model: AIModel, settings: CustomizationSettings, imageData: Option<string>, temperatureText: string)
    ensures var ps := ResponseParagraphs(model, settings, imageData, temperatureText);
      ps[0] == ToneLine(settings.tone) &&
      ps[|ps| - 1] == FooterLine(Footer(model.name, temperatureText, settings.thinkingMode)) &&
      (ExtraContextLine in ps <==> settings.verbosity > 50) &&
      (WebSearchLine in ps <==> settings.webSearch) &&
      (ImageLine in ps <==> HasImage(imageData)) &&
      (forall i, j :: 0 <= i < |ps| && 0 <= j < |ps| && ps[i] == WebSearchLine && ps[j] == ImageLine ==> i < j)
  {
    var ps := ResponseParagraphs(model, settings, imageData, temperatureText);
    var e := if settings.verbosity > 50 then 1 else 0;
    var w := if settings.webSearch then 1 else 0;
    forall i | 0 <= i < |ps| && ps[i] == WebSearchLine
      ensures i == 1 + e
    {
    }
    forall j | 0 <= j < |ps| && ps[j] == ImageLine
      ensures j == 1 + e + w
    {
    }
  }

  /** Tokens and cost of a successful call: random tokens in 100..1099, 0.02 for premium models and nothing for free ones. */
  function UsageFor(model: AIModel, random: real): (usage: Usage)
    requires 0.0 <= random < 1.0
    ensures 100 <= usage.tokens <= 1099
    ensures usage.costHundredths == (if model.tier == Premium then 2 else 0)
    ensures model.tier == Free ==> usage.costHundredths == 0
  {
    var tokens := (random * 1000.0).Floor + 100;
    assert random * 1000.0 < 1000.0;
    Usage(tokens, if model.tier == Premium then 2 else 0)
  }

  datatype InputKind = TextKind | ImageKind | VoiceKind | MultimodalKind
  datatype TaskCategory = General | TechnicalTask | CreativeTask | Analysis

  /** The preference table of `selectOptimalModel`; every input kind maps the categories alike. */
  function SelectOptimalModel(inputType: InputKind, category: TaskCategory): (modelId: string)
    ensures modelId in ConfiguredIds
    ensures category == TechnicalTask ==> modelId == "claude-3-opus"
    ensures category == CreativeTask ==> modelId == "gemini-pro"
    ensures category == General || category == Analysis ==> modelId == "gpt-4"
  {
    match inputType
    case TextKind => PreferenceRow(category)
    case ImageKind => PreferenceRow(category)
    case VoiceKind => PreferenceRow(category)
    case MultimodalKind => PreferenceRow(category)
  }

  /** One row of the preference table. */
  function PreferenceRow(category: TaskCategory): string {
    match category
    case General => "gpt-4"
    case TechnicalTask => "claude-3-opus"
    case CreativeTask => "gemini-pro"
    case Analysis => "gpt-4"
  }

  /** The input kind plays no part in the choice. */
  lemma SelectionIgnoresInputType(a: InputKind, b: InputKind, category: TaskCategory)
    ensures SelectOptimalModel(a, category) == SelectOptimalModel(b, category)
  {
  }

  /** `getModelQuota`: a random usage in 0..6 of a limit of 7, for any model id. */
  function GetModelQuota(modelId: string, random: real): (quota: (int, int))
    requires 0.0 <= random < 1.0
    ensures 0 <= quota.0 <= 6 && quota.1 == 7
    ensures quota.0 < quota.1
  {
    assert random * 7.0 < 7.0;
    ((random * 7.0).Floor, 7)
  }

  class ModelManager {
    var modelConfigs: map<string, ModelConfig>

    ghost predicate Valid()
      reads this
    {
      modelConfigs == EntriesToMap(ConfigEntries)
    }

    /** Registers each configuration in turn. */
    constructor ()
      ensures Valid()
    {
      modelConfigs := map[];
      new;
      var i := 0;
      while i < |ConfigEntries|
        invariant 0 <= i <= |ConfigEntries|
        invariant modelConfigs == EntriesToMap(ConfigEntries[..i])
      {
        var (id, config) := ConfigEntries[i];
        assert ConfigEntries[..i + 1][..i] == ConfigEntries[..i];
        modelConfigs := modelConfigs[id := config];
        i := i + 1;
      }
      assert ConfigEntries[..i] == ConfigEntries;
    }

    /** `validateModel`: the id has a configuration. */
    function ValidateModel(modelId: string): (ok: bool)
      reads this
      requires Valid()
      ensures ok <==> modelId == "gpt-4" || modelId == "claude-3-opus" || modelId == "gemini-pro"
    {
      ConfigTable();
      modelId in modelConfigs
    }

    /** `response += "\n\n" + paragraph`. */
    static method AppendParagraph(response: string, ghost paragraphs: seq<Paragraph>, p: Paragraph) returns (extended: string)
      requires |paragraphs| >= 1 && response == Compose(paragraphs)
      ensures extended == Compose(paragraphs + [p])
    {
      ComposeAppend(paragraphs, p);
      extended := response + "\n\n" + Render(p);
    }

    /**
     * `callModelAPI`: builds the text paragraph by paragraph; the result is
     * the response paragraphs separated by blank lines. The temperature is
     * given as the text JavaScript renders for it.
     */
    method CallModelAPI(prompt: string, model: AIModel, settings: CustomizationSettings, imageData: Option<string>, temperatureText: string)
      returns (text: string)
      ensures text == Compose(ResponseParagraphs(model, settings, imageData, temperatureText))
    {
      ghost var ps := [ToneLine(settings.tone)];
      var response := ToneModifier(settings.tone);
      var verbosityMultiplier := (settings.verbosity as real) / 50.0;
      VerbosityThreshold(settings.verbosity);
      if verbosityMultiplier > 1.0 {
        response := AppendParagraph(response, ps, ExtraContextLine);
      }
      ps := WithContext(ps, settings.verbosity);
      if settings.webSearch {
        response := AppendParagraph(response, ps, WebSearchLine);
      }
      ps := WithWebNote(ps, settings.webSearch);
      if HasImage(imageData) {
        response := AppendParagraph(response, ps, ImageLine);
      }
      ps := WithImageNote(ps, imageData);
      text := AppendParagraph(response, ps, FooterLine(Footer(model.name, temperatureText, settings.thinkingMode)));
    }

    /**
     * `generateResponse`: an unconfigured model fails with the message naming
     * its id and nothing else; a configured one succeeds with the composed
     * text and its usage. `random` is the value `Math.random` draws.
     */
    method GenerateResponse(prompt: string, model: AIModel, settings: CustomizationSettings, imageData: Option<string>,
                            temperatureText: string, random: real)
      returns (response: APIResponse)
      requires Valid()
      requires 0.0 <= random < 1.0
      ensures !ValidateModel(model.id) ==>
        response == APIResponse(false, None, Some("Model configuration not found for " + model.id), None)
      ensures ValidateModel(model.id) ==>
        response.success && response.error.None? &&
        response.data == Some(Compose(ResponseParagraphs(model, settings, imageData, temperatureText))) &&
        response.usage == Some(UsageFor(model, random))
      ensures response.success <==> ValidateModel(model.id)
    {
      if model.id !in modelConfigs {
        return APIResponse(false, None, Some("Model configuration not found for " + model.id), None);
      }
      var text := CallModelAPI(prompt, model, settings, imageData, temperatureText);
      response := APIResponse(true, Some(text), None, Some(UsageFor(model, random)));
    }
  }

  /** The response text opens with the tone's sentence and closes with the footer naming the model. */
  lemma ResponseTextEnds(model: AIModel, settings: CustomizationSettings, imageData: Option<string>, temperatureText: string)
    ensures StartsWith(Compose(ResponseParagraphs(model, settings, imageData, temperatureText)), ToneModifier(settings.tone))
    ensures EndsWith(Compose(ResponseParagraphs(model, settings, imageData, temperatureText)),
                     Footer(model.name, temperatureText, settings.thinkingMode))
  {
    ResponseStructure(model, settings, imageData, temperatureText);
    ComposeEnds(ResponseParagraphs(model, settings, imageData, temperatureText));
  }
}
