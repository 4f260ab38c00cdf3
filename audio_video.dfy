/**
 * The audio-video route: for each script part, in order, obtain narration,
 * search stock footage, select enough of it to cover the narration, and
 * collect one segment per part; any failure aborts the whole request.
 * The text-to-speech and footage-search services are parameters.
 */
module AudioVideo {
  import opened Results
  import Footage

  /** One script part as the client sends it. */
  datatype Part = Part(text: string, query: string, previous: Option<string>, next: Option<string>)

  const OutputFormat := "mp3_44100_128"
  const SpeechModel := "eleven_multilingual_v2"
  const VideosPerPage: nat := 5
  const FinalVideoUrl := "https://dummyvideo.com/final-video.mp4"

  /** The text-to-speech request made for one part. */
  datatype SpeechRequest = SpeechRequest(
    voiceId: string, text: string, previousText: string, nextText: string,
    outputFormat: string, modelId: string)

  /** A text-to-speech call either rejects or returns a reply whose audio may be absent. */
  datatype SpeechReply = SpeechRejected | Spoken(audioBase64: Option<string>)

  /** The stock-footage search made for one part. */
  datatype SearchRequest = SearchRequest(query: string, perPage: nat)

  /** A search either rejects or returns a reply that may lack a `videos` field. */
  datatype SearchReply = SearchRejected | Searched(videos: Option<seq<Footage.Video>>)

  /** The remote services, as the reply each gives to the call made for part number i. */
  datatype Services = Services(
    speak: (nat, SpeechRequest) -> SpeechReply,
    search: (nat, SearchRequest) -> SearchReply)

  /** What aborts the request; every one of them reaches the client as the same opaque error. */
  datatype RouteError =
    | ServiceRejected
    | AudioMissing(text: string)
    | NoVideosFound(query: string)
    | VideoFileMissing
    | InsufficientVideoDuration(text: string)

  /** What the route keeps for a finished part: the narration and the selected footage links. */
  datatype Segment = Segment(audio: string, videos: seq<string>)

  /** The HTTP answer. */
  datatype Response = VideoUrl(videoUrl: string) | ServerError

  function OrEmpty(s: Option<string>): string
  {
    if s.Some? then s.value else ""
  }

  function SpeechRequestFor(voiceId: string, part: Part): SpeechRequest
  {
    SpeechRequest(voiceId, part.text, OrEmpty(part.previous), OrEmpty(part.next), OutputFormat, SpeechModel)
  }

  function SearchRequestFor(part: Part): SearchRequest
  {
    SearchRequest(part.query, VideosPerPage)
  }

  /** An absent or empty audio payload is falsy and rejected. */
  predicate AudioPresent(audio: Option<string>)
  {
    audio.Some? && audio.value != ""
  }

  /** Placeholder narration length in seconds; the payload is not inspected. */
  function CalculateAudioDuration(audioBase64: string): nat
  {
    10
  }

  /** Every payload, whatever it holds, is given the same ten-second target. */
  lemma AudioDurationIsConstant(a: string, b: string)
    ensures CalculateAudioDuration(a) == CalculateAudioDuration(b) == 10
  {
  }

  /** One iteration of the route's loop, for part number i. */
  function ProcessPart(services: Services, voiceId: string, i: nat, part: Part): Result<Segment, RouteError>
  {
    match services.speak(i, SpeechRequestFor(voiceId, part))
    case SpeechRejected => Failure(ServiceRejected)
    case Spoken(audio) =>
      if !AudioPresent(audio) then Failure(AudioMissing(part.text))
      else
        var audioDuration := CalculateAudioDuration(audio.value);
        match services.search(i, SearchRequestFor(part))
        case SearchRejected => Failure(ServiceRejected)
        case Searched(found) =>
          if found.None? || found.value == [] then Failure(NoVideosFound(part.query))
          else
            match Footage.Allocation(found.value, audioDuration)
            case Failure(err) =>
              if err.NoVideoFile? then Failure(VideoFileMissing)
              else Failure(InsufficientVideoDuration(part.text))
            case Success(links) => Success(Segment(audio.value, links))
  }

  /** The loop over all parts: the first failing part decides the outcome, otherwise one segment per part. */
  function Run(services: Services, voiceId: string, parts: seq<Part>): Result<seq<Segment>, RouteError>
    decreases |parts|
  {
    if parts == [] then Success([])
    else
      var n := |parts| - 1;
      match Run(services, voiceId, parts[..n])
      case Failure(e) => Failure(e)
      case Success(segments) =>
        match ProcessPart(services, voiceId, n, parts[n])
        case Failure(e) => Failure(e)
        case Success(segment) => Success(segments + [segment])
  }

  /** Once a prefix of the parts fails, later parts change nothing. */
  lemma {:induction false} FailureIsFinal(services: Services, voiceId: string, parts: seq<Part>, k: nat)
    requires k <= |parts| && Run(services, voiceId, parts[..k]).Failure?
    ensures Run(services, voiceId, parts) == Run(services, voiceId, parts[..k])
    decreases |parts|
  {
    if k == |parts| {
      assert parts[..k] == parts;
    } else {
      var n := |parts| - 1;
      assert parts[..n][..k] == parts[..k];
      FailureIsFinal(services, voiceId, parts[..n], k);
    }
  }

  /**
   * The request succeeds exactly when every part does, and then holds one
   * segment per part, in input order.
   */
  lemma {:induction false} RunSuccess(services: Services, voiceId: string, parts: seq<Part>)
    ensures Run(services, voiceId, parts).Success?
            <==> forall i :: 0 <= i < |parts| ==> ProcessPart(services, voiceId, i, parts[i]).Success?
    ensures Run(services, voiceId, parts).Success? ==>
              var segments := Run(services, voiceId, parts).value;
              |segments| == |parts| &&
              forall i :: 0 <= i < |parts| ==> ProcessPart(services, voiceId, i, parts[i]) == Success(segments[i])
    decreases |parts|
  {
    if parts != [] {
      var n := |parts| - 1;
      var prefix := parts[..n];
      RunSuccess(services, voiceId, prefix);
      assert forall i :: 0 <= i < n ==> prefix[i] == parts[i];
    }
  }

  /** A failed request failed at some part after all earlier parts had succeeded, with that part's error. */
  lemma {:induction false} RunFailure(services: Services, voiceId: string, parts: seq<Part>)
    requires Run(services, voiceId, parts).Failure?
    ensures exists i :: 0 <= i < |parts|
              && (forall j :: 0 <= j < i ==> ProcessPart(services, voiceId, j, parts[j]).Success?)
              && ProcessPart(services, voiceId, i, parts[i]) == Failure(Run(services, voiceId, parts).error)
    decreases |parts|
  {
    var n := |parts| - 1;
    var prefix := parts[..n];
    assert forall i :: 0 <= i < n ==> prefix[i] == parts[i];
    if Run(services, voiceId, prefix).Failure? {
      RunFailure(services, voiceId, prefix);
      var i :| 0 <= i < n
        && (forall j :: 0 <= j < i ==> ProcessPart(services, voiceId, j, prefix[j]).Success?)
        && ProcessPart(services, voiceId, i, prefix[i]) == Failure(Run(services, voiceId, prefix).error);
      assert ProcessPart(services, voiceId, i, parts[i]) == Failure(Run(services, voiceId, parts).error);
    } else {
      RunSuccess(services, voiceId, prefix);
      assert ProcessPart(services, voiceId, n, parts[n]) == Failure(Run(services, voiceId, parts).error);
    }
  }

  /**
   * A missing or empty audio payload fails the part with its text, whatever the
   * footage search would have answered: the search is never consulted.
   */
  lemma AudioCheckPrecedesSearch(speak: (nat, SpeechRequest) -> SpeechReply,
                                 search1: (nat, SearchRequest) -> SearchReply,
                                 search2: (nat, SearchRequest) -> SearchReply,
                                 voiceId: string, i: nat, part: Part)
    requires speak(i, SpeechRequestFor(voiceId, part)).Spoken?
    requires !AudioPresent(speak(i, SpeechRequestFor(voiceId, part)).audioBase64)
    ensures ProcessPart(Services(speak, search1), voiceId, i, part) == Failure(AudioMissing(part.text))
    ensures ProcessPart(Services(speak, search1), voiceId, i, part) == ProcessPart(Services(speak, search2), voiceId, i, part)
  {
  }

  /** An absent or empty search result fails the part with its query before any selection. */
  lemma EmptySearchFails(services: Services, voiceId: string, i: nat, part: Part)
    requires services.speak(i, SpeechRequestFor(voiceId, part)).Spoken?
    requires AudioPresent(services.speak(i, SpeechRequestFor(voiceId, part)).audioBase64)
    requires services.search(i, SearchRequestFor(part)) in {Searched(None), Searched(Some([]))}
    ensures ProcessPart(services, voiceId, i, part) == Failure(NoVideosFound(part.query))
  {
  }

  /**
   * A finished part carries the non-empty narration it was given and a prefix
   * of its search results, one link per video, totalling at least the ten-second
   * target, such that dropping the last selected video would fall short.
   */
  lemma SegmentCoversNarration(services: Services, voiceId: string, i: nat, part: Part, segment: Segment)
    requires ProcessPart(services, voiceId, i, part) == Success(segment)
    ensures segment.audio != ""
    ensures services.speak(i, SpeechRequestFor(voiceId, part)) == Spoken(Some(segment.audio))
    ensures services.search(i, SearchRequestFor(part)).Searched?
    ensures var found := services.search(i, SearchRequestFor(part)).videos;
            && found.Some?
            && var videos := found.value;
            && 0 < |segment.videos| <= |videos|
            && Footage.HasFiles(videos[..|segment.videos|])
            && segment.videos == Footage.Links(videos[..|segment.videos|])
            && Footage.Total(videos[..|segment.videos|]) >= 10
            && Footage.Total(videos[..|segment.videos| - 1]) < 10
  {
    var videos := services.search(i, SearchRequestFor(part)).videos.value;
    Footage.AllocationSuccess(videos, 10, segment.videos);
  }

  /** The route: the loop over the parts, then the fixed final URL or the opaque error. */
  method GenerateAudioVideo(services: Services, voiceId: string, parts: seq<Part>)
    returns (outcome: Result<seq<Segment>, RouteError>, response: Response)
    ensures outcome == Run(services, voiceId, parts)
    ensures response == if outcome.Success? then VideoUrl(FinalVideoUrl) else ServerError
  {
    var videoSegments: seq<Segment> := [];
    for i := 0 to |parts|
      invariant Run(services, voiceId, parts[..i]) == Success(videoSegments)
    {
      var part := parts[i];
      assert parts[..i + 1][..i] == parts[..i];
      assert parts[..i + 1][i] == part;
      var audioResponse := services.speak(i, SpeechRequestFor(voiceId, part));
      if audioResponse.SpeechRejected? {
        FailureIsFinal(services, voiceId, parts, i + 1);
        return Failure(ServiceRejected), ServerError;
      }
      var audioBase64 := audioResponse.audioBase64;
      if !AudioPresent(audioBase64) {
        FailureIsFinal(services, voiceId, parts, i + 1);
        return Failure(AudioMissing(part.text)), ServerError;
      }
      var audioDuration := CalculateAudioDuration(audioBase64.value);
      var videoResponse := services.search(i, SearchRequestFor(part));
      if videoResponse.SearchRejected? {
        FailureIsFinal(services, voiceId, parts, i + 1);
        return Failure(ServiceRejected), ServerError;
      }
      if videoResponse.videos.None? || videoResponse.videos.value == [] {
        FailureIsFinal(services, voiceId, parts, i + 1);
        return Failure(NoVideosFound(part.query)), ServerError;
      }
      var selection := Footage.SelectVideos(videoResponse.videos.value, audioDuration);
      if selection == Failure(Footage.NoVideoFile) {
        FailureIsFinal(services, voiceId, parts, i + 1);
        return Failure(VideoFileMissing), ServerError;
      }
      if selection == Failure(Footage.InsufficientDuration) {
        FailureIsFinal(services, voiceId, parts, i + 1);
        return Failure(InsufficientVideoDuration(part.text)), ServerError;
      }
      videoSegments := videoSegments + [Segment(audioBase64.value, selection.value)];
    }
    assert parts[..|parts|] == parts;
    outcome, response := Success(videoSegments), VideoUrl(FinalVideoUrl);
  }
}
