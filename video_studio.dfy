/**
 * The video studio view: its prompt, progress flags, key-selection flag, error and
 * latest video, and the handlers that change them. Each handler runs as one step;
 * the provider's and the host's answers are its parameters.
 */
module VideoStudio {
  import opened Wrappers
  import opened Text
  import opened Types
  import opened GeminiService
  import AppState

  const SessionExpired: string := "API Session expired. Please re-select your API key."
  const TimedOut: string := "Video generation timed out. Please try again."
  const OptimizeFailed: string := "Prompt optimization failed."

  /** The host's key-selection object: absent, or present and answering whether a key is selected. */
  datatype KeyHost = NoHost | Host(selected: bool)

  /**
   * The gate as written: `!aistudio?.hasSelectedApiKey()` negates the promise the
   * host returns without awaiting it, and a promise is always truthy.
   */
  function KeyGateAsWritten(host: KeyHost): (ok: bool)
    ensures ok <==> host != NoHost
  {
    host.Host?
  }

  /** The gate with the host's answer awaited. */
  function KeyGate(host: KeyHost): (ok: bool)
    ensures ok <==> host == Host(true)
  {
    host.Host? && host.selected
  }

  /** As written, a host that has no key selected is let through; awaited, it is stopped. */
  lemma UnawaitedKeyGateAdmitsNoKey()
    ensures KeyGateAsWritten(Host(false)) && !KeyGate(Host(false))
  {
  }

  /** A failure message that is read as an expired key selection: "not found" occurs in it. */
  predicate IsSessionExpiry(message: string): (b: bool)
    ensures b <==> exists i: nat :: OccursAt(message, "not found", i)
  {
    Contains(message, "not found")
  }

  /** How the awaited `generateVideoVeo` call settles, once the download is known. */
  datatype Settled = Unsettled | Resolved(url: string) | Rejected(message: string)

  /**
   * The service outcome combined with the download step: `download` is the local URL
   * created for the fetched video, or the message the fetch failed with.
   */
  function Settle(outcome: VideoOutcome, download: Result<string, string>): (s: Settled)
    ensures s.Unsettled? <==> outcome.Waiting?
    ensures s.Resolved? <==> outcome.Fetch? && download.Success?
    ensures s.Resolved? ==> s.url == download.value
    ensures outcome.VideoError? ==> s == Rejected(outcome.message)
    ensures outcome.Fetch? && download.Failure? ==> s == Rejected(download.error)
  {
    match outcome
    case Waiting => Unsettled
    case VideoError(m) => Rejected(m)
    case Fetch(_) =>
      match download
      case Success(url) => Resolved(url)
      case Failure(m) => Rejected(m)
  }

  class Studio {
    var prompt: string
    var loading: bool
    var optimizing: bool
    var videoUrl: Option<string>
    var aspectRatio: VideoAspect
    var needsKey: bool
    var error: Option<string>
    /** The application whose `addHistory` the studio calls. */
    const app: AppState.App

    constructor (app: AppState.App)
      ensures prompt == [] && !loading && !optimizing && videoUrl.None?
      ensures aspectRatio == DefaultVideoAspect && !needsKey && error.None?
      ensures this.app == app
    {
      prompt := [];
      loading := false;
      optimizing := false;
      videoUrl := None;
      aspectRatio := DefaultVideoAspect;
      needsKey := false;
      error := None;
      this.app := app;
    }

    /** Typing in the prompt box. */
    method SetPrompt(p: string)
      modifies this`prompt
      ensures prompt == p
    {
      prompt := p;
    }

    /** The aspect-ratio buttons. */
    method SetAspectRatio(a: VideoAspect)
      modifies this`aspectRatio
      ensures aspectRatio == a
    {
      aspectRatio := a;
    }

    /** `checkApiKey`: ask the host; without a selected key, ask the user to select one. */
    method CheckApiKey(host: KeyHost) returns (ok: bool)
      modifies this`needsKey
      ensures ok <==> host == Host(true)
      ensures needsKey == (old(needsKey) || !ok)
    {
      if !KeyGate(host) {
        needsKey := true;
        return false;
      }
      return true;
    }

    /** `handleSelectKey`: the flag is cleared only when the host's selection dialog succeeds. */
    method HandleSelectKey(selectionSucceeded: bool)
      modifies this`needsKey
      ensures needsKey == (old(needsKey) && !selectionSucceeded)
    {
      if selectionSucceeded {
        needsKey := false;
      }
    }

    /**
     * `handleOptimize`: nothing on a blank prompt; otherwise the prompt is sent to
     * `optimizePrompt` (returned in `sent`) and replaced by the optimised one, or the
     * error is set, and `optimizing` ends false.
     */
    method HandleOptimize(reply: Result<Option<string>, string>) returns (sent: Option<string>)
      modifies this`prompt, this`optimizing, this`error
      ensures IsBlank(old(prompt)) ==>
        sent.None? && prompt == old(prompt) && optimizing == old(optimizing) && error == old(error)
      ensures !IsBlank(old(prompt)) ==> sent == Some(old(prompt)) && !optimizing
      ensures !IsBlank(old(prompt)) && reply.Success? ==>
        prompt == OptimizedPrompt(old(prompt), reply.value) && error == old(error)
      ensures !IsBlank(old(prompt)) && reply.Failure? ==>
        prompt == old(prompt) && error == Some(OptimizeFailed)
    {
      if IsBlank(prompt) {
        return None;
      }
      optimizing := true;
      sent := Some(prompt);
      match reply {
        case Success(text) =>
          prompt := OptimizedPrompt(prompt, text);
        case Failure(_) =>
          error := Some(OptimizeFailed);
      }
      optimizing := false;
    }

    /** The `catch` block of `handleGenerate`: a "not found" failure asks for a new key. */
    method ShowFailure(message: string)
      modifies this`error, this`needsKey
      ensures error.Some? && error.value != []
      ensures needsKey <==> old(needsKey) || IsSessionExpiry(message)
      ensures IsSessionExpiry(message) ==> error == Some(SessionExpired)
      ensures !IsSessionExpiry(message) ==> error == Some(MessageOr(message, TimedOut))
    {
      if IsSessionExpiry(message) {
        error := Some(SessionExpired);
        needsKey := true;
      } else {
        error := Some(MessageOr(message, TimedOut));
      }
    }

    /**
     * The rest of `handleGenerate` once the video call settles: on success the video
     * is shown and one history item added; on failure the error is shown; `loading`
     * then ends false. An unsettled call leaves everything as it is.
     */
    method Conclude(settled: Settled, id: string, timestamp: int)
      modifies this`loading, this`error, this`videoUrl, this`needsKey, app
      ensures app.activeTab == old(app.activeTab) && app.user == old(app.user)
      ensures settled.Unsettled? ==>
        && loading == old(loading) && error == old(error) && videoUrl == old(videoUrl)
        && needsKey == old(needsKey) && app.history == old(app.history) && app.storage == old(app.storage)
      ensures settled.Resolved? ==>
        && !loading && error == old(error) && videoUrl == Some(settled.url) && needsKey == old(needsKey)
        && app.history == [CompletedItem(Video, id, settled.url, prompt, timestamp)] + old(app.history)
        && app.storage == AppState.Save(old(app.storage), app.history)
      ensures settled.Rejected? ==>
        && !loading && videoUrl == old(videoUrl) && error.Some? && error.value != []
        && app.history == old(app.history) && app.storage == old(app.storage)
        && (IsSessionExpiry(settled.message) ==> error == Some(SessionExpired) && needsKey)
        && (!IsSessionExpiry(settled.message) ==>
              error == Some(MessageOr(settled.message, TimedOut)) && needsKey == old(needsKey))
    {
      match settled {
        case Unsettled =>
          return;
        case Resolved(url) =>
          videoUrl := Some(url);
          app.AddHistory(CompletedItem(Video, id, url, prompt, timestamp));
        case Rejected(m) =>
          ShowFailure(m);
      }
      loading := false;
    }

    /**
     * `handleGenerate`: nothing on a blank prompt; without a selected key, only
     * `needsKey` is set; otherwise the error is cleared, the video is requested and,
     * once the call settles, either the video is shown and one history item added,
     * or the error is set (asking for a new key on "not found"); `loading` then ends
     * false. While the call has not settled, `loading` stays true.
     */
    method HandleGenerate(host: KeyHost, submitted: Result<Operation, string>, script: seq<StatusReply>,
                          apiKey: string, download: Result<string, string>, id: string, timestamp: int)
      returns (issued: Option<VideoRequest>)
      modifies this`loading, this`error, this`videoUrl, this`needsKey, app
      ensures app.activeTab == old(app.activeTab) && app.user == old(app.user)
      ensures IsBlank(old(prompt)) ==>
        && issued.None? && loading == old(loading) && error == old(error) && videoUrl == old(videoUrl)
        && needsKey == old(needsKey) && app.history == old(app.history) && app.storage == old(app.storage)
      ensures !IsBlank(old(prompt)) && !KeyGate(host) ==>
        && issued.None? && needsKey && loading == old(loading) && error == old(error)
        && videoUrl == old(videoUrl) && app.history == old(app.history) && app.storage == old(app.storage)
      ensures !IsBlank(old(prompt)) && KeyGate(host) ==>
        var settled := Settle(VideoResult(submitted, script, apiKey), download);
        && issued == Some(VideoRequestFor(old(prompt), old(aspectRatio)))
        && (settled.Unsettled? ==>
              && loading && error.None? && videoUrl == old(videoUrl) && needsKey == old(needsKey)
              && app.history == old(app.history) && app.storage == old(app.storage))
        && (settled.Resolved? ==>
              && !loading && error.None? && videoUrl == Some(settled.url) && needsKey == old(needsKey)
              && app.history == [CompletedItem(Video, id, settled.url, old(prompt), timestamp)] + old(app.history)
              && app.storage == AppState.Save(old(app.storage), app.history))
        && (settled.Rejected? ==>
              && !loading && videoUrl == old(videoUrl) && error.Some? && error.value != []
              && app.history == old(app.history) && app.storage == old(app.storage)
              && (IsSessionExpiry(settled.message) ==> error == Some(SessionExpired) && needsKey)
              && (!IsSessionExpiry(settled.message) ==>
                    error == Some(MessageOr(settled.message, TimedOut)) && needsKey == old(needsKey)))
    {
      if IsBlank(prompt) {
        return None;
      }
      var hasKey := CheckApiKey(host);
      if !hasKey {
        return None;
      }
      loading := true;
      error := None;
      var request, outcome := GenerateVideoVeo(prompt, aspectRatio, submitted, script, apiKey);
      issued := Some(request);
      Conclude(Settle(outcome, download), id, timestamp);
    }
  }
}
