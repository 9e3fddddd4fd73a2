/**
 * The image route (src/app/api/generate-image/route.ts): ordered guards on the
 * prompt and the token, the prompt wrapping, and the classification of the
 * provider's outcome into a response. The HuggingFace call is an input: the
 * outcome it had, and the prompt it was given is part of the result.
 */
module GenerateImage {
  import opened Common

  const MissingPrompt := "Missing prompt"
  const MissingToken := "Missing HuggingFace token in env"
  const LicenseNotAccepted := "Please accept the FLUX.1-dev model license on HuggingFace first."
  const ImageFailed := "Failed to generate image"
  const DataUrlPrefix := "data:image/jpeg;base64,"

  /** The template lines around the user's prompt, with the template's own newlines and indentation. */
  const PromptPrefix := "\n      Ultra-detailed cinematic photography.\n      "
  const PromptSuffix := ".\n      Professional lighting, 8K realism, sharp focus.\n    "

  /**
   * What `textToImage` and the conversion of its blob did: an image (its
   * base64 text), or an error with an optional `message`.
   */
  datatype ProviderOutcome = Image(base64: string) | ProviderError(message: Option<string>)

  /** The response, and the prompt given to the provider (`None`: it was not called). */
  datatype ImageExchange = ImageExchange(sent: Option<string>, response: Response)

  function FinalPrompt(prompt: string): string {
    PromptPrefix + prompt + PromptSuffix
  }

  /**
   * The text the provider receives carries the user's prompt, unaltered,
   * between the fixed lines, so different prompts reach it as different texts.
   */
  lemma FinalPromptKeepsPrompt(p: string, q: string)
    ensures FinalPrompt(p)[..|PromptPrefix|] == PromptPrefix
    ensures FinalPrompt(p)[|PromptPrefix|..|FinalPrompt(p)| - |PromptSuffix|] == p
    ensures FinalPrompt(p)[|FinalPrompt(p)| - |PromptSuffix|..] == PromptSuffix
    ensures FinalPrompt(p) == FinalPrompt(q) ==> p == q
  {
    var f := FinalPrompt(p);
    assert f == PromptPrefix + (p + PromptSuffix);
    assert f[|PromptPrefix|..] == p + PromptSuffix;
    assert f[|PromptPrefix|..|f| - |PromptSuffix|] == (p + PromptSuffix)[..|p|];
    assert (p + PromptSuffix)[..|p|] == p;
    var g := FinalPrompt(q);
    if f == g {
      assert |p| == |q|;
      assert g[|PromptPrefix|..|g| - |PromptSuffix|] == (q + PromptSuffix)[..|q|] == q;
    }
  }

  /** A provider error becomes 403 when its message mentions 403, else the generic 500. */
  function ErrorResponse(message: Option<string>): (r: Response)
    ensures r.status == 403 <==> message.Some? && Contains(message.value, "403")
    ensures r.status == 403 ==> r.body == ErrorBody(LicenseNotAccepted)
    ensures r.status != 403 ==> r == Response(500, ErrorBody(ImageFailed))
  {
    if message.Some? && Contains(message.value, "403") then Response(403, ErrorBody(LicenseNotAccepted))
    else Response(500, ErrorBody(ImageFailed))
  }

  /**
   * `POST /api/generate-image`. `request` is the `prompt` property of the
   * parsed body (`None` when absent), or a failure when the body could not
   * be read or destructured; `token` is HUGGING_FACE_TOKEN ("" when unset).
   */
  function Post(request: Result<Option<string>, string>, token: string, provider: ProviderOutcome): (x: ImageExchange)
    ensures request.Failure? ==> x == ImageExchange(None, Response(500, ErrorBody(ImageFailed)))
    ensures request.Success? && (request.value.None? || request.value == Some("")) ==>
              x == ImageExchange(None, Response(400, ErrorBody(MissingPrompt)))
    ensures request.Success? && request.value.Some? && request.value.value != "" && token == "" ==>
              x == ImageExchange(None, Response(500, ErrorBody(MissingToken)))
    ensures x.sent.Some? <==> request.Success? && request.value.Some? && request.value.value != "" && token != ""
    ensures x.sent.Some? ==> x.sent.value == FinalPrompt(request.value.value)
    ensures x.response.status == 200 <==> x.sent.Some? && provider.Image?
    ensures x.response.status == 200 ==>
              x.response.body == JObj([("image", JStr(DataUrlPrefix + provider.base64))])
    ensures x.response.status == 403 <==>
              x.sent.Some? && provider.ProviderError? && provider.message.Some?
              && Contains(provider.message.value, "403")
    ensures x.sent.Some? && provider.ProviderError? ==> x.response == ErrorResponse(provider.message)
    ensures x.response.status == 400 <==> request.Success? && (request.value.None? || request.value == Some(""))
    ensures x.response.status in {200, 400, 403, 500}
  {
    match request
    case Failure(_) => ImageExchange(None, Response(500, ErrorBody(ImageFailed)))
    case Success(prompt) =>
      if prompt.None? || prompt.value == "" then ImageExchange(None, Response(400, ErrorBody(MissingPrompt)))
      else if token == "" then ImageExchange(None, Response(500, ErrorBody(MissingToken)))
      else
        var finalPrompt := FinalPrompt(prompt.value);
        match provider
        case Image(b64) => ImageExchange(Some(finalPrompt), Response(200, JObj([("image", JStr(DataUrlPrefix + b64))])))
        case ProviderError(m) => ImageExchange(Some(finalPrompt), ErrorResponse(m))
  }

  /** Every image a successful response carries is a JPEG data URL. */
  lemma SuccessIsDataUrl(request: Result<Option<string>, string>, token: string, provider: ProviderOutcome)
    ensures var r := Post(request, token, provider).response;
      r.status == 200 ==>
        exists url :: r.body == JObj([("image", JStr(url))])
          && |url| >= |DataUrlPrefix| && url[..|DataUrlPrefix|] == DataUrlPrefix
  {
    var r := Post(request, token, provider).response;
    if r.status == 200 {
      var url := DataUrlPrefix + provider.base64;
      assert url[..|DataUrlPrefix|] == DataUrlPrefix;
    }
  }
}
