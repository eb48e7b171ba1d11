/**
 * The image workshop view: its prompt, progress flags, chosen aspect ratio, error
 * and latest image, and the handlers that change them. Each handler runs as one
 * step; the provider's answers are its parameters.
 */
module ImageWorkshop {
  import opened Wrappers
  import opened Text
  import opened Types
  import opened GeminiService
  import AppState

  const OptimizeFailed: string := "Failed to optimize prompt. Try a simpler description."
  const GenerateFailed: string := "Failed to generate image."

  class Workshop {
    var prompt: string
    var loading: bool
    var optimizing: bool
    var result: Option<string>
    var aspectRatio: ImageAspect
    var error: Option<string>
    /** The application whose `addHistory` the workshop calls. */
    const app: AppState.App

    constructor (app: AppState.App)
      ensures prompt == [] && !loading && !optimizing && result.None?
      ensures aspectRatio == DefaultImageAspect && ImageAspectValue(aspectRatio) == "1:1"
      ensures error.None? && this.app == app
    {
      prompt := [];
      loading := false;
      optimizing := false;
      result := None;
      aspectRatio := DefaultImageAspect;
      error := None;
      this.app := app;
    }

    /** Typing in the prompt box. */
    method SetPrompt(p: string)
      modifies this`prompt
      ensures prompt == p
    {
      prompt := p;
    }

    /** The aspect-ratio buttons: one of the four offered ratios. */
    method SetAspectRatio(a: ImageAspect)
      modifies this`aspectRatio
      ensures aspectRatio == a && ImageAspectValue(aspectRatio) in {"1:1", "4:3", "16:9", "9:16"}
    {
      aspectRatio := a;
    }

    /**
     * `handleOptimize`: nothing on a blank prompt; otherwise the prompt is sent to
     * `optimizePrompt` (returned in `sent`) and replaced by the optimised one, or the
     * error is set, and `optimizing` ends false.
     */
    method HandleOptimize(reply: Result<Option<string>, string>) returns (sent: Option<string>)
      modifies this`prompt, this`optimizing, this`error
      ensures IsBlank(old(prompt)) ==>
        sent.None? && prompt == old(prompt) && optimizing == old(optimizing) && error == old(error)
      ensures !IsBlank(old(prompt)) ==> sent == Some(old(prompt)) && !optimizing
      ensures !IsBlank(old(prompt)) && reply.Success? ==>
        prompt == OptimizedPrompt(old(prompt), reply.value) && error == old(error)
      ensures !IsBlank(old(prompt)) && reply.Failure? ==>
        prompt == old(prompt) && error == Some(OptimizeFailed)
    {
      if IsBlank(prompt) {
        return None;
      }
      optimizing := true;
      sent := Some(prompt);
      match reply {
        case Success(text) =>
          prompt := OptimizedPrompt(prompt, text);
        case Failure(_) =>
          error := Some(OptimizeFailed);
      }
      optimizing := false;
    }

    /**
     * `handleGenerate`: nothing on a blank prompt; otherwise the error is cleared, the
     * image is requested and either shown with one history item added, or the error
     * is set; `loading` ends false.
     */
    method HandleGenerate(reply: Result<ImageResponse, string>, id: string, timestamp: int)
      returns (issued: Option<ImageRequest>)
      modifies this`loading, this`error, this`result, app
      ensures app.activeTab == old(app.activeTab) && app.user == old(app.user)
      ensures IsBlank(old(prompt)) ==>
        && issued.None? && loading == old(loading) && error == old(error) && result == old(result)
        && app.history == old(app.history) && app.storage == old(app.storage)
      ensures !IsBlank(old(prompt)) ==>
        var outcome := ImageResult(reply);
        && issued == Some(ImageRequestFor(old(prompt), old(aspectRatio))) && !loading
        && (outcome.Success? ==>
              && result == Some(outcome.value) && error.None?
              && app.history == [CompletedItem(Image, id, outcome.value, old(prompt), timestamp)] + old(app.history)
              && app.storage == AppState.Save(old(app.storage), app.history))
        && (outcome.Failure? ==>
              && result == old(result) && error == Some(MessageOr(outcome.error, GenerateFailed))
              && app.history == old(app.history) && app.storage == old(app.storage))
    {
      if IsBlank(prompt) {
        return None;
      }
      loading := true;
      error := None;
      var request, outcome := GenerateImage(prompt, aspectRatio, reply);
      issued := Some(request);
      match outcome {
        case Success(url) =>
          result := Some(url);
          app.AddHistory(CompletedItem(Image, id, url, prompt, timestamp));
        case Failure(m) =>
          error := Some(MessageOr(m, GenerateFailed));
      }
      loading := false;
    }
  }
}
