/** The records shared by the store, the turn controller and the services. */
module EgoTypes {
  import opened Wrappers

  datatype Role = User | Assistant

  /** A chat message; `timestamp` is milliseconds since the epoch. */
  datatype Message = Message(id: string, role: Role, content: string, image: Option<string>, timestamp: int)

  datatype Tier = Free | Premium

  datatype AIModel = AIModel(
    id: string,
    name: string,
    tier: Tier,
    quotaUsed: int,
    quotaLimit: int,
    apiEndpoint: Option<string>)

  datatype Tone = Professional | Casual | Creative | Technical | Friendly

  /**
   * The response settings. The UI keeps `verbosity` on 10..100 and
   * `temperature` on 0..2; the type itself does not.
   */
  datatype CustomizationSettings = CustomizationSettings(
    tone: Tone,
    verbosity: int,
    thinkingMode: bool,
    webSearch: bool,
    temperature: real)

  /** The store's input mode: 'text' | 'image' | 'voice'. */
  datatype InputMode = TextInput | ImageInput | VoiceInput

  datatype SearchResult = SearchResult(title: string, url: string, snippet: string, source: string)

  /** Token count and cost of one model call; the cost is kept in hundredths (0.02 is 2). */
  datatype Usage = Usage(tokens: int, costHundredths: int)

  datatype APIResponse = APIResponse(
    success: bool,
    data: Option<string>,
    error: Option<string>,
    usage: Option<Usage>)

  /** What the services read of a browser `File`: its name, MIME type and size in bytes. */
  datatype FileInfo = FileInfo(name: string, mimeType: string, size: int)
}
