/**
 * The generation service: the requests it sends to the provider and how it turns
 * the provider's replies into a prompt, an image data URI or a video download URL.
 * The provider's replies are inputs here.
 */
module GeminiService {
  import opened Wrappers
  import opened Text

  // ----- optimizePrompt -----

  const TextModel: string := "gemini-3-flash-preview"

  datatype TextRequest = TextRequest(model: string, contents: string)

  /** The instruction sent to the text model, before and after the quoted raw prompt. */
  const InstructionHead: string :=
    "Refine the following user prompt for high-quality image/video generation. \n    User input: \""
  const InstructionTail: string :=
    "\". \n    Output ONLY the refined prompt string with details like lighting, artistic style, camera angle, and resolution details."

  /** The request `optimizePrompt` sends: the instruction quoting the raw prompt. */
  function OptimizeRequest(rawPrompt: string): (r: TextRequest)
    ensures r.model == TextModel && Contains(r.contents, rawPrompt)
  {
    ContainsMiddle(InstructionHead, rawPrompt, InstructionTail);
    TextRequest(TextModel, InstructionHead + rawPrompt + InstructionTail)
  }

  /**
   * `response.text?.trim() || rawPrompt`: the trimmed reply when it has any
   * non-whitespace content, otherwise the raw prompt exactly as given.
   */
  function OptimizedPrompt(rawPrompt: string, text: Option<string>): (r: string)
    ensures text.Some? && !IsBlank(text.value) ==> r == Trim(text.value)
    ensures text.None? || IsBlank(text.value) ==> r == rawPrompt
    ensures r != rawPrompt ==> !IsBlank(r)
  {
    match text
    case Some(t) =>
      BlankIffTrimEmpty(t);
      if Trim(t) != [] then Trim(t) else rawPrompt
    case None => rawPrompt
  }

  /** A prompt with content is never optimised into a blank one. */
  lemma OptimizedPromptNotBlank(rawPrompt: string, text: Option<string>)
    requires !IsBlank(rawPrompt)
    ensures !IsBlank(OptimizedPrompt(rawPrompt, text))
  {
  }

  /** Whatever the provider answers is used only trimmed: optimising leaves nothing to trim. */
  lemma OptimizedPromptTrimmed(rawPrompt: string, text: Option<string>)
    requires Trim(rawPrompt) == rawPrompt
    ensures Trim(OptimizedPrompt(rawPrompt, text)) == OptimizedPrompt(rawPrompt, text)
  {
    if text.Some? {
      TrimIdempotent(text.value);
    }
  }

  // ----- generateImage -----

  const ImageModel: string := "gemini-2.5-flash-image"

  /** The four aspect ratios an image may be requested in. */
  datatype ImageAspect = Ratio1x1 | Ratio4x3 | Ratio16x9 | Ratio9x16

  /** The default of `generateImage` and the initial choice of the image workshop. */
  const DefaultImageAspect: ImageAspect := Ratio1x1

  /** The `aspectRatio` string each button sends. */
  function ImageAspectValue(a: ImageAspect): (v: string)
    ensures a == Ratio1x1 <==> v == "1:1"
    ensures a == Ratio4x3 <==> v == "4:3"
    ensures a == Ratio16x9 <==> v == "16:9"
    ensures a == Ratio9x16 <==> v == "9:16"
  {
    match a
    case Ratio1x1 => "1:1"
    case Ratio4x3 => "4:3"
    case Ratio16x9 => "16:9"
    case Ratio9x16 => "9:16"
  }

  /** Distinct choices are sent as distinct strings. */
  lemma ImageAspectValueInjective(a: ImageAspect, b: ImageAspect)
    ensures ImageAspectValue(a) == ImageAspectValue(b) ==> a == b
  {
  }

  datatype ImageRequest = ImageRequest(model: string, prompt: string, aspectRatio: string)

  function ImageRequestFor(prompt: string, aspect: ImageAspect): (r: ImageRequest)
    ensures r.model == ImageModel && r.prompt == prompt
    ensures r.aspectRatio == ImageAspectValue(aspect)
    ensures r.aspectRatio in {"1:1", "4:3", "16:9", "9:16"}
  {
    ImageRequest(ImageModel, prompt, ImageAspectValue(aspect))
  }

  /** The provider's reply: candidates holding content parts, some with inline binary data. */
  datatype InlineData = InlineData(mimeType: Option<string>, data: Option<string>)
  datatype Part = Part(inlineData: Option<InlineData>)
  datatype Content = Content(parts: Option<seq<Part>>)
  datatype Candidate = Candidate(content: Option<Content>)
  datatype ImageResponse = ImageResponse(candidates: Option<seq<Candidate>>)

  const NoImageData: string := "No image data found in response"

  /** The TypeError raised by `.content.parts` when the first candidate has no content. */
  const MissingContent: string := "Cannot read properties of undefined (reading 'parts')"

  /**
   * `response.candidates?.[0]?.content.parts || []`: the parts of the first candidate,
   * none when there is no candidate; `content` itself is not optional.
   */
  function ResponseParts(response: ImageResponse): (r: Result<seq<Part>, string>)
    ensures response.candidates.None? || response.candidates.value == [] ==> r == Success([])
    ensures r.Failure? <==>
      response.candidates.Some? && response.candidates.value != [] && response.candidates.value[0].content.None?
    ensures r.Failure? ==> r.error == MissingContent
    ensures r.Success? && r.value != [] ==>
      && response.candidates.Some? && response.candidates.value != []
      && response.candidates.value[0].content.Some?
      && response.candidates.value[0].content.value.parts == Some(r.value)
    ensures response.candidates.Some? && response.candidates.value != [] &&
            response.candidates.value[0].content.Some? ==>
      var ps := response.candidates.value[0].content.value.parts;
      r == Success(if ps.Some? then ps.value else [])
  {
    match response.candidates
    case None => Success([])
    case Some(cs) =>
      if cs == [] then Success([])
      else
        match cs[0].content
        case None => Failure(MissingContent)
        case Some(c) => Success(if c.parts.Some? then c.parts.value else [])
  }

  /** The position of the first part that carries inline data, if any. */
  function FirstInline(parts: seq<Part>): (r: Option<nat>)
    ensures r.Some? ==> r.value < |parts| && parts[r.value].inlineData.Some?
    ensures r.Some? ==> forall k :: 0 <= k < r.value ==> parts[k].inlineData.None?
    ensures r.None? ==> forall k :: 0 <= k < |parts| ==> parts[k].inlineData.None?
  {
    if parts == [] then None
    else if parts[0].inlineData.Some? then Some(0)
    else
      match FirstInline(parts[1..])
      case None => None
      case Some(k) => Some(k + 1)
  }

  /** Parts without inline data in front of the others are skipped. */
  lemma {:induction false} FirstInlineSkips(skipped: seq<Part>, parts: seq<Part>)
    requires forall k :: 0 <= k < |skipped| ==> skipped[k].inlineData.None?
    ensures FirstInline(skipped + parts) ==
      match FirstInline(parts) case None => None case Some(k) => Some(k + |skipped|)
  {
    if skipped != [] {
      assert (skipped + parts)[1..] == skipped[1..] + parts;
      FirstInlineSkips(skipped[1..], parts);
    } else {
      assert skipped + parts == parts;
    }
  }

  /** Parts after the first one with inline data are ignored. */
  lemma {:induction false} FirstInlineIgnoresLater(parts: seq<Part>, later: seq<Part>)
    requires FirstInline(parts).Some?
    ensures FirstInline(parts + later) == FirstInline(parts)
  {
    if parts[0].inlineData.None? {
      assert (parts + later)[1..] == parts[1..] + later;
      FirstInlineIgnoresLater(parts[1..], later);
    }
  }

  /** A template-literal field: an absent value is rendered as "undefined". */
  function Rendered(field: Option<string>): string {
    if field.Some? then field.value else "undefined"
  }

  /** `data:<mime>;base64,<data>` */
  function DataUri(mimeType: string, data: string): (u: string)
    ensures |u| == 13 + |mimeType| + |data|
    ensures u[..5] == "data:" && u[5..5 + |mimeType|] == mimeType
    ensures u[5 + |mimeType|..13 + |mimeType|] == ";base64," && u[13 + |mimeType|..] == data
  {
    "data:" + mimeType + ";base64," + data
  }

  /** The URI line 31 builds from a part's inline data. */
  function UriOf(d: InlineData): (u: string)
    ensures StartsWith(u, "data:") && |u| == 13 + |Rendered(d.mimeType)| + |Rendered(d.data)|
    ensures u[5..5 + |Rendered(d.mimeType)|] == Rendered(d.mimeType)
    ensures u[|u| - |Rendered(d.data)|..] == Rendered(d.data)
  {
    DataUri(Rendered(d.mimeType), Rendered(d.data))
  }

  /** The position of the first `c` in `s`. */
  function IndexOf(s: string, c: char): (r: Option<nat>)
    ensures r.Some? ==> r.value < |s| && s[r.value] == c && c !in s[..r.value]
    ensures r.None? ==> c !in s
  {
    if s == [] then None
    else if s[0] == c then Some(0)
    else
      match IndexOf(s[1..], c)
      case None => None
      case Some(k) =>
        assert s[..k + 1] == [s[0]] + s[1..][..k];
        Some(k + 1)
  }

  /** Reads a `data:<mime>;base64,<data>` URI back into its MIME type and data. */
  function ParseDataUri(s: string): Option<(string, string)> {
    if !StartsWith(s, "data:") then None
    else
      var rest := s[5..];
      match IndexOf(rest, ';')
      case None => None
      case Some(i) =>
        var tail := rest[i + 1..];
        if StartsWith(tail, "base64,") then Some((rest[..i], tail[7..])) else None
  }

  /** `c` is found right after a prefix that does not contain it. */
  lemma {:induction false} IndexOfAfter(p: string, c: char, q: string)
    requires c !in p
    ensures IndexOf(p + [c] + q, c) == Some(|p|)
  {
    if p != [] {
      assert (p + [c] + q)[1..] == p[1..] + [c] + q;
      IndexOfAfter(p[1..], c, q);
    }
  }

  /** A data URI gives back the MIME type and the data it was built from. */
  lemma DataUriRoundTrip(mimeType: string, data: string)
    requires ';' !in mimeType
    ensures ParseDataUri(DataUri(mimeType, data)) == Some((mimeType, data))
  {
    var tail := "base64," + data;
    var rest := mimeType + [';'] + tail;
    var s := DataUri(mimeType, data);
    assert s == "data:" + rest;
    assert StartsWith(s, "data:") && s[5..] == rest;
    IndexOfAfter(mimeType, ';', tail);
    assert rest[..|mimeType|] == mimeType && rest[|mimeType| + 1..] == tail;
    assert StartsWith(tail, "base64,") && tail[7..] == data;
  }

  /** What `generateImage` resolves to (Success) or throws (Failure), given the provider's reply or transport error. */
  function ImageResult(reply: Result<ImageResponse, string>): (r: Result<string, string>)
    ensures reply.Failure? ==> r == Failure(reply.error)
    ensures reply.Success? && r.Failure? ==> r.error == NoImageData || r.error == MissingContent
    ensures r.Success? ==> StartsWith(r.value, "data:")
  {
    match reply
    case Failure(e) => Failure(e)
    case Success(response) =>
      match ResponseParts(response)
      case Failure(e) => Failure(e)
      case Success(parts) =>
        match FirstInline(parts)
        case None => Failure(NoImageData)
        case Some(k) => Success(UriOf(parts[k].inlineData.value))
  }

  /** A response without candidates, or with an empty list of them, has no image data. */
  lemma NoCandidatesNoImage(response: ImageResponse)
    requires response.candidates.None? || response.candidates.value == []
    ensures ImageResult(Success(response)) == Failure(NoImageData)
  {
  }

  /** The URI built from inline data reads back as its MIME type and data, "undefined" for an absent field. */
  lemma UriOfParses(d: InlineData)
    requires d.mimeType.Some? ==> ';' !in d.mimeType.value
    ensures StartsWith(UriOf(d), "data:")
    ensures ParseDataUri(UriOf(d)) == Some((Rendered(d.mimeType), Rendered(d.data)))
  {
    assert ';' !in Rendered(d.mimeType);
    DataUriRoundTrip(Rendered(d.mimeType), Rendered(d.data));
  }

  /**
   * Once the parts are reached, a generated image is the data URI of the first part
   * with inline data; with no such part the call fails with NoImageData.
   */
  lemma ImageFromParts(response: ImageResponse, parts: seq<Part>)
    requires ResponseParts(response) == Success(parts)
    ensures ImageResult(Success(response)).Failure? <==> FirstInline(parts).None?
    ensures ImageResult(Success(response)).Failure? ==> ImageResult(Success(response)).error == NoImageData
    ensures FirstInline(parts).Some? ==>
      ImageResult(Success(response)) == Success(UriOf(parts[FirstInline(parts).value].inlineData.value))
  {
  }

  /**
   * The image is the data URI of the first inline part among the first candidate's
   * parts, or NoImageData when none carries inline data; a first candidate without
   * content fails with the TypeError.
   */
  lemma ImageFromFirstCandidate(response: ImageResponse)
    requires response.candidates.Some? && response.candidates.value != []
    ensures response.candidates.value[0].content.None? ==>
      ImageResult(Success(response)) == Failure(MissingContent)
    ensures response.candidates.value[0].content.Some? ==>
      var ps := response.candidates.value[0].content.value.parts;
      var parts := if ps.Some? then ps.value else [];
      && (FirstInline(parts).None? ==> ImageResult(Success(response)) == Failure(NoImageData))
      && (FirstInline(parts).Some? ==>
            ImageResult(Success(response)) == Success(UriOf(parts[FirstInline(parts).value].inlineData.value)))
  {
  }

  /** A generated image reads back as the first inline part's MIME type and data. */
  lemma ImageResultShape(response: ImageResponse, parts: seq<Part>)
    requires ResponseParts(response) == Success(parts)
    requires forall k :: 0 <= k < |parts| && parts[k].inlineData.Some? && parts[k].inlineData.value.mimeType.Some? ==>
      ';' !in parts[k].inlineData.value.mimeType.value
    ensures ImageResult(Success(response)).Success? ==>
      var d := parts[FirstInline(parts).value].inlineData.value;
      ParseDataUri(ImageResult(Success(response)).value) == Some((Rendered(d.mimeType), Rendered(d.data)))
  {
    if FirstInline(parts).Some? {
      UriOfParses(parts[FirstInline(parts).value].inlineData.value);
    }
  }

  /** The `for ... of` loop over the parts, returning at the first one with inline data. */
  method ScanParts(parts: seq<Part>) returns (r: Result<string, string>)
    ensures FirstInline(parts).None? ==> r == Failure(NoImageData)
    ensures FirstInline(parts).Some? ==> r == Success(UriOf(parts[FirstInline(parts).value].inlineData.value))
  {
    for i := 0 to |parts|
      invariant forall k :: 0 <= k < i ==> parts[k].inlineData.None?
    {
      if parts[i].inlineData.Some? {
        assert FirstInline(parts) == Some(i) by {
          if FirstInline(parts) != Some(i) {
            assert FirstInline(parts).Some? && FirstInline(parts).value != i;
          }
        }
        return Success(UriOf(parts[i].inlineData.value));
      }
    }
    return Failure(NoImageData);
  }

  /** `generateImage(prompt, aspectRatio)` with the provider's reply supplied. */
  method GenerateImage(prompt: string, aspect: ImageAspect, reply: Result<ImageResponse, string>)
    returns (request: ImageRequest, r: Result<string, string>)
    ensures request == ImageRequestFor(prompt, aspect)
    ensures r == ImageResult(reply)
  {
    request := ImageRequestFor(prompt, aspect);
    if reply.Failure? {
      return request, Failure(reply.error);
    }
    var parts := ResponseParts(reply.value);
    if parts.Failure? {
      return request, Failure(parts.error);
    }
    r := ScanParts(parts.value);
  }

  // ----- generateVideoVeo -----

  const VideoModel: string := "veo-3.1-fast-generate-preview"

  /** The two aspect ratios a video may be requested in; landscape is the default. */
  datatype VideoAspect = Landscape | Portrait

  const DefaultVideoAspect: VideoAspect := Landscape

  /** The `aspectRatio` string each button sends. */
  function VideoAspectValue(a: VideoAspect): (v: string)
    ensures a == Landscape <==> v == "16:9"
    ensures a == Portrait <==> v == "9:16"
  {
    match a
    case Landscape => "16:9"
    case Portrait => "9:16"
  }

  datatype VideoConfig = VideoConfig(numberOfVideos: nat, resolution: string, aspectRatio: string)
  datatype VideoRequest = VideoRequest(model: string, prompt: string, config: VideoConfig)

  /** One video, at 720p, in the chosen aspect ratio. */
  function VideoRequestFor(prompt: string, aspect: VideoAspect): (r: VideoRequest)
    ensures r.model == VideoModel && r.prompt == prompt
    ensures r.config.numberOfVideos == 1 && r.config.resolution == "720p"
    ensures r.config.aspectRatio == VideoAspectValue(aspect)
    ensures r.config.aspectRatio in {"16:9", "9:16"}
  {
    VideoRequest(VideoModel, prompt, VideoConfig(1, "720p", VideoAspectValue(aspect)))
  }

  /** The long-running operation as the provider reports it. */
  datatype VideoFile = VideoFile(uri: Option<string>)
  datatype GeneratedVideo = GeneratedVideo(video: Option<VideoFile>)
  datatype VideoResponse = VideoResponse(generatedVideos: Option<seq<GeneratedVideo>>)
  datatype Operation = Operation(done: bool, response: Option<VideoResponse>)

  /** The reply to one status query: a new snapshot of the operation, or a thrown error. */
  datatype StatusReply = Status(op: Operation) | StatusError(message: string)

  /**
   * Where polling stands after the supplied replies: finished with a completed
   * operation, failed with a thrown error, or still waiting because every reply
   * supplied so far was not done. `queries` counts the status queries made.
   */
  datatype PollOutcome =
    | Finished(op: Operation, queries: nat)
    | PollFailed(message: string, queries: nat)
    | StillPolling(queries: nat)

  function AddQueries(o: PollOutcome, n: nat): (r: PollOutcome) {
    match o
    case Finished(op, q) => Finished(op, q + n)
    case PollFailed(m, q) => PollFailed(m, q + n)
    case StillPolling(q) => StillPolling(q + n)
  }

  /** `while (!operation.done) { wait; operation = getVideosOperation(operation) }` over the replies in `script`. */
  function Poll(op: Operation, script: seq<StatusReply>): (r: PollOutcome)
    ensures r.queries <= |script|
    ensures r.queries == 0 <==> op.done || script == []
    ensures r.StillPolling? ==>
      && !op.done && r.queries == |script|
      && forall k :: 0 <= k < |script| ==> script[k].Status? && !script[k].op.done
    ensures r.PollFailed? ==>
      && !op.done && 1 <= r.queries <= |script| && script[r.queries - 1] == StatusError(r.message)
      && forall k :: 0 <= k < r.queries - 1 ==> script[k].Status? && !script[k].op.done
    decreases |script|
  {
    if op.done then Finished(op, 0)
    else if script == [] then StillPolling(0)
    else
      match script[0]
      case StatusError(m) => PollFailed(m, 1)
      case Status(next) => AddQueries(Poll(next, script[1..]), 1)
  }

  /**
   * Polling stops only at a done snapshot: the last one observed, after one query
   * for each not-done snapshot before it (the first operation and the replies
   * before the last), never more queries than replies.
   */
  lemma {:induction false} PollFinishedOnlyWhenDone(op: Operation, script: seq<StatusReply>)
    ensures Poll(op, script).queries <= |script|
    ensures Poll(op, script).Finished? ==>
      var q := Poll(op, script).queries;
      var last := Poll(op, script).op;
      && last.done
      && (q == 0 <==> op.done)
      && (q == 0 ==> last == op)
      && (q > 0 ==> script[q - 1] == Status(last))
      && (forall k :: 0 <= k < q - 1 ==> script[k].Status? && !script[k].op.done)
    decreases |script|
  {
    if !op.done && script != [] && script[0].Status? {
      PollFinishedOnlyWhenDone(script[0].op, script[1..]);
    }
  }

  /**
   * An operation that reports not done `n` times (the submission and the first
   * n - 1 replies) and then done is finished after exactly `n` status queries.
   */
  lemma {:induction false} PollCountsQueries(op: Operation, script: seq<StatusReply>, n: nat)
    requires !op.done && 1 <= n <= |script|
    requires forall k :: 0 <= k < n - 1 ==> script[k].Status? && !script[k].op.done
    requires script[n - 1].Status? && script[n - 1].op.done
    ensures Poll(op, script) == Finished(script[n - 1].op, n)
    decreases n
  {
    if n > 1 {
      PollCountsQueries(script[0].op, script[1..], n - 1);
    }
  }

  /** The polling loop; each pass stands for the ten-second wait and one status query. */
  method PollUntilDone(initial: Operation, script: seq<StatusReply>) returns (outcome: PollOutcome)
    ensures outcome == Poll(initial, script)
  {
    var op := initial;
    var i := 0;
    while !op.done
      invariant 0 <= i <= |script|
      invariant Poll(initial, script) == AddQueries(Poll(op, script[i..]), i)
      decreases |script| - i
    {
      if i == |script| {
        assert Poll(op, script[i..]) == StillPolling(0);
        return StillPolling(i);
      }
      assert script[i..][0] == script[i] && script[i..][1..] == script[i + 1..];
      match script[i]
      case StatusError(m) =>
        assert Poll(op, script[i..]) == PollFailed(m, 1);
        return PollFailed(m, i + 1);
      case Status(next) =>
        assert Poll(op, script[i..]) == AddQueries(Poll(next, script[i + 1..]), 1);
        assert AddQueries(AddQueries(Poll(next, script[i + 1..]), 1), i) == AddQueries(Poll(next, script[i + 1..]), i + 1);
        op := next;
      i := i + 1;
    }
    return Finished(op, i);
  }

  const VideoFailed: string := "Video generation failed"

  /** `operation.response?.generatedVideos?.[0]?.video?.uri` */
  function DownloadLink(op: Operation): (r: Option<string>)
    ensures r.Some? ==>
      && op.response.Some? && op.response.value.generatedVideos.Some?
      && op.response.value.generatedVideos.value != []
      && op.response.value.generatedVideos.value[0].video == Some(VideoFile(r))
    ensures (op.response.Some? && op.response.value.generatedVideos.Some? &&
             op.response.value.generatedVideos.value != [] &&
             op.response.value.generatedVideos.value[0].video.Some?) ==>
      r == op.response.value.generatedVideos.value[0].video.value.uri
  {
    match op.response
    case None => None
    case Some(resp) =>
      match resp.generatedVideos
      case None => None
      case Some(videos) =>
        if videos == [] then None
        else
          match videos[0].video
          case None => None
          case Some(v) => v.uri
  }

  /** The URL fetched for the video: the link with the API key appended as `&key=`. */
  function DownloadUrl(link: string, apiKey: string): (u: string)
    ensures StartsWith(u, link) && |u| == |link| + 5 + |apiKey|
    ensures u[|link|..|link| + 5] == "&key=" && u[|link| + 5..] == apiKey
  {
    link + "&key=" + apiKey
  }

  /** Where the video call ends up: fetching a URL, failing with a message, or still waiting on the provider. */
  datatype VideoOutcome = Fetch(url: string) | VideoError(message: string) | Waiting

  /** `generateVideoVeo` up to the fetch, given the submission's reply and the status replies. */
  function VideoResult(submitted: Result<Operation, string>, script: seq<StatusReply>, apiKey: string): (r: VideoOutcome)
    ensures submitted.Failure? ==> r == VideoError(submitted.error)
    ensures r.Waiting? <==> submitted.Success? && Poll(submitted.value, script).StillPolling?
  {
    match submitted
    case Failure(m) => VideoError(m)
    case Success(op) =>
      match Poll(op, script)
      case StillPolling(_) => Waiting
      case PollFailed(m, _) => VideoError(m)
      case Finished(last, _) =>
        var link := DownloadLink(last);
        if link.Some? && link.value != [] then Fetch(DownloadUrl(link.value, apiKey))
        else VideoError(VideoFailed)
  }

  /**
   * A video is fetched only from a done operation with a non-empty link, at that
   * link plus the key; a done operation without one fails with VideoFailed, and a
   * status query that throws fails with its message.
   */
  lemma VideoResultFetch(op: Operation, script: seq<StatusReply>, apiKey: string)
    ensures VideoResult(Success(op), script, apiKey).Fetch? ==>
      var p := Poll(op, script);
      p.Finished? && p.op.done && DownloadLink(p.op).Some? && DownloadLink(p.op).value != [] &&
      VideoResult(Success(op), script, apiKey).url == DownloadLink(p.op).value + "&key=" + apiKey
    ensures Poll(op, script).Finished? && (DownloadLink(Poll(op, script).op) in {None, Some("")}) ==>
      VideoResult(Success(op), script, apiKey) == VideoError(VideoFailed)
    ensures Poll(op, script).PollFailed? ==>
      VideoResult(Success(op), script, apiKey) == VideoError(Poll(op, script).message)
    ensures Poll(op, script).Finished? && DownloadLink(Poll(op, script).op).Some? &&
            DownloadLink(Poll(op, script).op).value != [] ==>
      VideoResult(Success(op), script, apiKey) == Fetch(DownloadUrl(DownloadLink(Poll(op, script).op).value, apiKey))
  {
    PollFinishedOnlyWhenDone(op, script);
  }

  /** `generateVideoVeo(prompt, aspectRatio)` up to the fetch, with the provider's replies supplied. */
  method GenerateVideoVeo(prompt: string, aspect: VideoAspect, submitted: Result<Operation, string>,
                          script: seq<StatusReply>, apiKey: string)
    returns (request: VideoRequest, outcome: VideoOutcome)
    ensures request == VideoRequestFor(prompt, aspect)
    ensures outcome == VideoResult(submitted, script, apiKey)
  {
    request := VideoRequestFor(prompt, aspect);
    if submitted.Failure? {
      return request, VideoError(submitted.error);
    }
    var polled := PollUntilDone(submitted.value, script);
    match polled
    case StillPolling(_) =>
      outcome := Waiting;
    case PollFailed(m, _) =>
      outcome := VideoError(m);
    case Finished(last, _) =>
      var link := DownloadLink(last);
      if link.None? || link.value == [] {
        outcome := VideoError(VideoFailed);
      } else {
        outcome := Fetch(DownloadUrl(link.value, apiKey));
      }
  }
}
