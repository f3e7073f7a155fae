/** What the controller builds from a validated form: the body of the live
    creation call and the demo-mode result URL, with the test that decides
    how a result URL is rendered. */
module Payloads {
  import opened Wrappers
  import opened Validation

  const VideoModel := "sora-2-image-to-video"
  const AudioTagOpen := ". [BACKGROUND AUDIO: "
  const AudioTagClose := "]"

  /** The JSON body of the creation call: `{model, input: {prompt, image_urls}}`. */
  datatype Payload = Payload(model: string, prompt: string, imageUrls: seq<string>)

  /** The text prompt sent to the remote service: the user's prompt with the
      audio style appended as a bracketed directive. */
  function PayloadPrompt(prompt: string, audioStyle: string): (r: string)
    ensures prompt <= r
    ensures |r| == |prompt| + |AudioTagOpen| + |audioStyle| + |AudioTagClose|
    ensures r[|r| - |AudioTagClose| - |audioStyle|..|r| - |AudioTagClose|] == audioStyle
  {
    prompt + AudioTagOpen + audioStyle + AudioTagClose
  }

  /** The creation request for a validated form. */
  function BuildPayload(req: Request): (r: Payload)
    ensures r.model == VideoModel
    ensures r.imageUrls == [req.imageUrl]
    ensures req.prompt <= r.prompt
    ensures r.prompt == PayloadPrompt(req.prompt, req.audioStyle)
  {
    Payload(VideoModel, PayloadPrompt(req.prompt, req.audioStyle), [req.imageUrl])
  }

  // ---- Demo-mode result ----

  const ImageServiceMarker := "pollinations"
  const DemoScheme := "https://image."
  /** "https://image.pollinations.ai/prompt/" */
  const DemoUrlPrefix := DemoScheme + ImageServiceMarker + ".ai/prompt/"
  const DemoUrlQuery := "?width=1280&height=720&nologo=true"
  const DemoPromptSuffix := ", highly detailed, cinematic lighting, 8k resolution, photorealistic"

  /** The demo result: an image-service URL for the prompt with a fixed
      styling suffix; `encode` stands for encodeURIComponent. */
  function DemoUrl(prompt: string, encode: string -> string): (r: string)
    ensures DemoUrlPrefix <= r
    ensures |r| == |DemoUrlPrefix| + |encode(prompt + DemoPromptSuffix)| + |DemoUrlQuery|
    ensures r[|DemoUrlPrefix|..|r| - |DemoUrlQuery|] == encode(prompt + DemoPromptSuffix)
    ensures r[|r| - |DemoUrlQuery|..] == DemoUrlQuery
  {
    DemoUrlPrefix + encode(prompt + DemoPromptSuffix) + DemoUrlQuery
  }

  /** The viewer and the gallery show a URL as a still image, animated by
      CSS, when it mentions the image service; otherwise as a video. */
  predicate RendersAsImage(url: string): (b: bool)
    ensures b <==> exists i | 0 <= i <= |url| :: OccursAt(url, ImageServiceMarker, i)
  {
    Includes(url, ImageServiceMarker)
  }

  /** Every demo result is rendered as an image. */
  lemma DemoUrlRendersAsImage(prompt: string, encode: string -> string)
    ensures RendersAsImage(DemoUrl(prompt, encode))
  {
    var r := DemoUrl(prompt, encode);
    var i := |DemoScheme|;
    assert r[i..i + |ImageServiceMarker|] == ImageServiceMarker;
    assert OccursAt(r, ImageServiceMarker, i);
  }
}
