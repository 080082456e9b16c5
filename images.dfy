/**
 * The image-generation stub: a bounded prompt history (most recent 50, handed
 * out most recent first), the simulated generation result with its option
 * defaults, and the fixed placeholder urls of the editing operations.
 */
module Images {
  import opened Wrappers
  import opened Text
  import opened History
  import opened EgoTypes

  const MaxGenerationHistory: nat := 50

  datatype ImageStyle = Photorealistic | Artistic | Cartoon | Abstract
  datatype ImageSize = Size512x512 | Size1024x1024 | Size1792x1024 | Size1024x1792
  datatype ImageModel = DallE3 | StableDiffusion | Midjourney
  datatype ImageQuality = Standard | HD

  function StyleName(style: ImageStyle): string {
    match style
    case Photorealistic => "photorealistic"
    case Artistic => "artistic"
    case Cartoon => "cartoon"
    case Abstract => "abstract"
  }

  function SizeName(size: ImageSize): string {
    match size
    case Size512x512 => "512x512"
    case Size1024x1024 => "1024x1024"
    case Size1792x1024 => "1792x1024"
    case Size1024x1792 => "1024x1792"
  }

  function ModelName(model: ImageModel): string {
    match model
    case DallE3 => "dall-e-3"
    case StableDiffusion => "stable-diffusion"
    case Midjourney => "midjourney"
  }

  /** The optional settings of `generateImage`; quality and negative prompt are accepted and ignored. */
  datatype GenerationOptions = GenerationOptions(
    style: Option<ImageStyle>,
    size: Option<ImageSize>,
    model: Option<ImageModel>,
    quality: Option<ImageQuality>,
    negativePrompt: Option<string>)

  /** The metadata of a generated image, its names as the source reports them; the simulated cost is not kept. */
  datatype GenerationMetadata = GenerationMetadata(model: string, size: string, style: string, generationTime: int)

  datatype GenerationResult = GenerationResult(
    imageUrl: string,
    prompt: string,
    revisedPrompt: Option<string>,
    metadata: GenerationMetadata)

  const GeneratedImageUrl: string := "https://via.placeholder.com/1024x1024/4ade80/ffffff?text=Generated+Image"

  /** The prompt as the simulated generator "revises" it. */
  function RevisedPrompt(prompt: string): (revised: string)
    ensures |revised| == |"Enhanced prompt: "| + |prompt| + |" with improved artistic detail"|
    ensures StartsWith(revised, "Enhanced prompt: ")
    ensures EndsWith(revised, " with improved artistic detail")
    ensures revised[|"Enhanced prompt: "|..|"Enhanced prompt: "| + |prompt|] == prompt
  {
    var revised := "Enhanced prompt: " + prompt + " with improved artistic detail";
    assert revised[..|"Enhanced prompt: "|] == "Enhanced prompt: ";
    assert revised[|revised| - |" with improved artistic detail"|..] == " with improved artistic detail";
    revised
  }

  /**
   * The result of `generateImage` for a generation that took `generationTime`
   * milliseconds: missing options fall back to dall-e-3, 1024x1024 and
   * photorealistic; given options pass through.
   */
  function GenerationFor(prompt: string, options: GenerationOptions, generationTime: int): (result: GenerationResult)
    ensures result.prompt == prompt && result.imageUrl == GeneratedImageUrl
    ensures result.revisedPrompt == Some(RevisedPrompt(prompt))
    ensures result.metadata.model == ModelName(options.model.GetOr(DallE3))
    ensures options.model.None? ==> result.metadata.model == "dall-e-3"
    ensures options.size.None? ==> result.metadata.size == "1024x1024"
    ensures options.style.None? ==> result.metadata.style == "photorealistic"
    ensures options.size.Some? ==> result.metadata.size == SizeName(options.size.value)
    ensures options.style.Some? ==> result.metadata.style == StyleName(options.style.value)
    ensures result.metadata.generationTime == generationTime
  {
    GenerationResult(
      GeneratedImageUrl,
      prompt,
      Some(RevisedPrompt(prompt)),
      GenerationMetadata(
        ModelName(options.model.GetOr(DallE3)),
        SizeName(options.size.GetOr(Size1024x1024)),
        StyleName(options.style.GetOr(Photorealistic)),
        generationTime))
  }

  /** `editImage`: a fixed placeholder, whatever the file, instructions and options. */
  function EditImage(image: FileInfo, instructions: string, strength: Option<real>, model: Option<string>): (url: string)
    ensures url == "https://via.placeholder.com/1024x1024/4ade80/ffffff?text=Edited+Image"
  {
    "https://via.placeholder.com/1024x1024/4ade80/ffffff?text=Edited+Image"
  }

  /** `upscaleImage`: a fixed placeholder, whatever the file and scale factor. */
  function UpscaleImage(image: FileInfo, scaleFactor: int): (url: string)
    ensures url == "https://via.placeholder.com/2048x2048/4ade80/ffffff?text=Upscaled+Image"
  {
    "https://via.placeholder.com/2048x2048/4ade80/ffffff?text=Upscaled+Image"
  }

  /** `removeBackground`: a fixed placeholder, whatever the file. */
  function RemoveBackground(image: FileInfo): (url: string)
    ensures url == "https://via.placeholder.com/1024x1024/transparent/4ade80?text=No+Background"
  {
    "https://via.placeholder.com/1024x1024/transparent/4ade80?text=No+Background"
  }

  class ImageService {
    var generationHistory: seq<string>

    ghost predicate Valid()
      reads this
    {
      |generationHistory| <= MaxGenerationHistory
    }

    constructor ()
      ensures Valid() && generationHistory == []
    {
      generationHistory := [];
    }

    /**
     * `generateImage`: records the prompt (dropping the oldest beyond 50) and
     * returns the simulated result; `generationTime` is the measured delay.
     */
    method GenerateImage(prompt: string, options: GenerationOptions, generationTime: int) returns (result: GenerationResult)
      requires Valid()
      modifies this
      ensures Valid()
      ensures generationHistory == KeepLast(old(generationHistory) + [prompt], MaxGenerationHistory)
      ensures generationHistory[|generationHistory| - 1] == prompt
      ensures |old(generationHistory)| < MaxGenerationHistory ==> generationHistory == old(generationHistory) + [prompt]
      ensures |old(generationHistory)| == MaxGenerationHistory ==> generationHistory == old(generationHistory)[1..] + [prompt]
      ensures result == GenerationFor(prompt, options, generationTime)
    {
      AppendBounded(generationHistory, prompt, MaxGenerationHistory);
      generationHistory := generationHistory + [prompt];
      if |generationHistory| > MaxGenerationHistory {
        generationHistory := generationHistory[|generationHistory| - MaxGenerationHistory..];
      }
      result := GenerationFor(prompt, options, generationTime);
    }

    /** The prompts, most recent first; the history itself is not changed. */
    function GetGenerationHistory(): (recent: seq<string>)
      reads this
      ensures |recent| == |generationHistory|
      ensures generationHistory != [] ==> recent[0] == generationHistory[|generationHistory| - 1]
      ensures forall k :: 0 <= k < |recent| ==> recent[k] == generationHistory[|generationHistory| - 1 - k]
    {
      ReversedProperties(generationHistory);
      Reversed(generationHistory)
    }

    method ClearGenerationHistory()
      modifies this
      ensures Valid() && generationHistory == []
    {
      generationHistory := [];
    }
  }
}
