/**
 * The text side of the input handler: the trimmed text and word count of a
 * message, the file type and size validators, and the keyword classifier of
 * a message's intent.
 */
module InputHandling {
  import opened Text
  import opened EgoTypes

  /** What `processTextInput` reports; language, sentiment and category are fixed placeholders. */
  datatype TextAnalysis = TextAnalysis(
    processedText: string,
    wordCount: nat,
    language: string,
    sentiment: string,
    category: string)

  /**
   * `processTextInput`: the trimmed text, and as word count the number of
   * pieces `split(' ')` makes of the untrimmed text, which is one more than
   * its spaces, so that the empty text counts one word.
   */
  function ProcessTextInput(text: string): (analysis: TextAnalysis)
    ensures analysis.wordCount == CountChar(text, ' ') + 1
    ensures analysis.wordCount >= 1
    ensures text == [] ==> analysis.wordCount == 1
    ensures analysis.processedText == [] <==> IsBlank(text)
    ensures |analysis.processedText| <= |text|
    ensures analysis.processedText != [] ==>
      !IsWhitespace(analysis.processedText[0]) &&
      !IsWhitespace(analysis.processedText[|analysis.processedText| - 1])
    ensures exists i :: TrimmedAt(text, analysis.processedText, i)
    ensures analysis.language == "en" && analysis.sentiment == "neutral" && analysis.category == "general"
  {
    SplitLength(text, ' ');
    TrimEmptyIffBlank(text);
    TrimShape(text);
    TrimSlice(text);
    TextAnalysis(Trim(text), |Split(text, ' ')|, "en", "neutral", "general")
  }

  /** Trimming the processed text again changes nothing. */
  lemma ProcessedTextIsTrimmed(text: string)
    ensures Trim(ProcessTextInput(text).processedText) == ProcessTextInput(text).processedText
  {
    TrimIdempotent(text);
  }

  /** `validateFileType`: the file's MIME type is one of the allowed ones, compared exactly. */
  function ValidateFileType(file: FileInfo, allowedTypes: seq<string>): (ok: bool)
    ensures ok <==> exists i :: 0 <= i < |allowedTypes| && allowedTypes[i] == file.mimeType
    ensures allowedTypes == [] ==> !ok
  {
    file.mimeType in allowedTypes
  }

  const BytesPerMB: int := 1024 * 1024

  /** `validateFileSize`: at most `maxSizeMB` mebibytes, the limit itself included. */
  function ValidateFileSize(file: FileInfo, maxSizeMB: int): (ok: bool)
    ensures ok <==> file.size <= maxSizeMB * 1048576
  {
    var maxSizeBytes := maxSizeMB * 1024 * 1024;
    file.size <= maxSizeBytes
  }

  /** The size check is inclusive at the byte level: exactly the limit passes, one byte more fails. */
  lemma FileSizeBoundary(name: string, mimeType: string, maxSizeMB: int)
    ensures ValidateFileSize(FileInfo(name, mimeType, maxSizeMB * BytesPerMB), maxSizeMB)
    ensures !ValidateFileSize(FileInfo(name, mimeType, maxSizeMB * BytesPerMB + 1), maxSizeMB)
  {
  }

  /** A file accepted under some limit is accepted under every larger one. */
  lemma FileSizeMonotone(file: FileInfo, smaller: int, larger: int)
    requires smaller <= larger
    requires ValidateFileSize(file, smaller)
    ensures ValidateFileSize(file, larger)
  {
    assert smaller * 1048576 <= larger * 1048576;
  }

  datatype Category = Question | Command | Request | Conversation

  /**
   * `categorizeInput`: tried in order on the lower-cased input, a '?'
   * anywhere makes a question, a "create" or "generate" prefix a command,
   * a "please" prefix or "help" anywhere a request, and anything else is
   * conversation.
   */
  function CategorizeInput(input: string): (category: Category)
    ensures '?' in input <==> category == Question
    ensures category == Command <==>
      '?' !in input && (StartsWith(ToLower(input), "create") || StartsWith(ToLower(input), "generate"))
    ensures category == Request <==>
      '?' !in input && !StartsWith(ToLower(input), "create") && !StartsWith(ToLower(input), "generate") &&
      (StartsWith(ToLower(input), "please") || Contains(ToLower(input), "help"))
  {
    var lowerInput := ToLower(input);
    ContainsChar(lowerInput, '?');
    ToLowerKeepsChar(input, '?');
    if Contains(lowerInput, "?") then Question
    else if StartsWith(lowerInput, "create") || StartsWith(lowerInput, "generate") then Command
    else if StartsWith(lowerInput, "please") || Contains(lowerInput, "help") then Request
    else Conversation
  }

  /** The classifier ignores case: the lower-cased input falls in the same category. */
  lemma CategorizeIgnoresCase(input: string)
    ensures CategorizeInput(ToLower(input)) == CategorizeInput(input)
  {
    ToLowerIdempotent(input);
    ToLowerKeepsChar(input, '?');
  }

  /** A '?' outweighs every keyword: whatever surrounds it, the input is a question. */
  lemma QuestionMarkWins(before: string, after: string)
    ensures CategorizeInput(before + "?" + after) == Question
  {
    assert (before + "?" + after)[|before|] == '?';
  }
}
