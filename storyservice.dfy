/** The client-side guards that `createStory` and `updateStory` run on a story
    payload before any request leaves the browser. The requests themselves
    are values; what the server answers is the caller's parameter. */
module StoryService {
  import opened Common

  /** `StoryCreateType`: media are keys, and `audio`/`video` may be absent. */
  datatype StoryPayload = StoryPayload(
    title: string,
    description: string,
    category: string,
    tags: string,
    titlePhoto: MediaKey,
    photos: seq<MediaKey>,
    audio: Option<MediaKey>,
    video: Option<MediaKey>)

  /** An HTTP request with a story payload as its JSON body. */
  datatype StoryRequest = StoryRequest(verb: Verb, path: string, body: StoryPayload)

  const BothMediaError := "Cannot have both audio and video. Choose one."
  const VideoWithPhotosError := "Photos array must be empty when video is present."
  const AudioWithoutPhotosError := "titlePhoto and photos are required when audio is present."

  /** The payloads the guards let through, as three independent rules: at
      most one of audio and video; a video story has no gallery; an audio
      story has a title photo and a gallery. */
  predicate Acceptable(p: StoryPayload)
  {
    && !(Truthy(p.audio) && Truthy(p.video))
    && (Truthy(p.video) ==> p.photos == [])
    && (Truthy(p.audio) ==> p.titlePhoto != "" && p.photos != [])
  }

  /** The guard sequence shared by both operations: the checks run in order
      and the first that fails decides the error thrown. */
  function CheckStory(p: StoryPayload): (r: Result<StoryPayload>)
    ensures r.Success? <==> Acceptable(p)
    ensures r.Success? ==> r.value == p
    ensures r.Failure? ==>
      r.error.serverMessage.None?
      && r.error.message in {BothMediaError, VideoWithPhotosError, AudioWithoutPhotosError}
  {
    if Truthy(p.audio) && Truthy(p.video) then Failure(Thrown(BothMediaError))
    else if Truthy(p.video) && |p.photos| > 0 then Failure(Thrown(VideoWithPhotosError))
    else if Truthy(p.audio) && (p.titlePhoto == "" || |p.photos| == 0) then Failure(Thrown(AudioWithoutPhotosError))
    else Success(p)
  }

  /** `createStory(storyData)`: the request sent, or the guard's error. */
  function CreateStory(p: StoryPayload): (r: Result<StoryRequest>)
    ensures r.Success? <==> Acceptable(p)
    ensures r.Success? ==> r.value == StoryRequest(Post, "/stories/", p)
  {
    match CheckStory(p)
    case Failure(e) => Failure(e)
    case Success(body) => Success(StoryRequest(Post, "/stories/", body))
  }

  /** `updateStory(_id, storyData)`. */
  function UpdateStory(id: string, p: StoryPayload): (r: Result<StoryRequest>)
    ensures r.Success? <==> Acceptable(p)
    ensures r.Success? ==> r.value == StoryRequest(Put, "/stories/" + id, p)
  {
    match CheckStory(p)
    case Failure(e) => Failure(e)
    case Success(body) => Success(StoryRequest(Put, "/stories/" + id, body))
  }

  /** What the caller of either operation gets: the guard's error, or the
      server's reply to the request that was sent. */
  function Settle<R>(sent: Result<StoryRequest>, reply: Result<R>): (r: Result<R>)
    ensures sent.Failure? ==> r == Failure(sent.error)
    ensures sent.Success? ==> r == reply
  {
    if sent.Failure? then Failure(sent.error) else reply
  }

  /** The order of the checks decides the message: both media wins over any
      other fault, then a video with a gallery, then an incomplete audio story. */
  lemma FirstFailingCheck(p: StoryPayload)
    ensures Truthy(p.audio) && Truthy(p.video) ==> CheckStory(p) == Failure(Thrown(BothMediaError))
    ensures !Truthy(p.audio) && Truthy(p.video) && p.photos != [] ==>
      CheckStory(p) == Failure(Thrown(VideoWithPhotosError))
    ensures Truthy(p.audio) && !Truthy(p.video) && (p.titlePhoto == "" || p.photos == []) ==>
      CheckStory(p) == Failure(Thrown(AudioWithoutPhotosError))
  {
  }

  /** A payload carrying every fault at once reports only the first. */
  lemma AllFaultsReportBoth(p: StoryPayload)
    requires Truthy(p.audio) && Truthy(p.video) && p.photos != [] && p.titlePhoto == ""
    ensures !Acceptable(p)
    ensures CreateStory(p) == Failure(Thrown(BothMediaError))
  {
  }

  /** `createStory` and `updateStory` apply the same checks: one accepts a
      payload exactly when the other does, and they fail with the same error. */
  lemma CreateAndUpdateAgree(id: string, p: StoryPayload)
    ensures CreateStory(p).Success? <==> UpdateStory(id, p).Success?
    ensures CreateStory(p).Failure? ==> CreateStory(p).error == UpdateStory(id, p).error
    ensures CreateStory(p).Success? ==> CreateStory(p).value.body == UpdateStory(id, p).value.body == p
  {
  }

  /** A payload with neither audio nor video passes every check, whatever its
      photos, and is sent unchanged. */
  lemma NeitherMediaAccepted(p: StoryPayload)
    requires !Truthy(p.audio) && !Truthy(p.video)
    ensures CreateStory(p) == Success(StoryRequest(Post, "/stories/", p))
  {
  }

  /** An empty key counts as absent: `audio: ""` next to a video is no conflict. */
  lemma EmptyKeyIsAbsent(p: StoryPayload)
    requires p.audio == Some("") && Truthy(p.video) && p.photos == []
    ensures Acceptable(p)
  {
  }
}
