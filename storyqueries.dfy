/** The story query hooks: the `storiesKey` factory, create-with-upload (the
    media go up first, then the story is created from the keys that came
    back), and what the create, update and delete mutations do when they
    settle. The gateway's and the record endpoint's replies are parameters. */
module StoryQueries {
  import opened Common
  import opened Upload
  import opened StoryService
  import opened Queries

  const StoriesRoot := "stories"

  /** `storiesKey.<kind>(…)`. */
  function StoriesKey(k: KeyKind): (q: QueryKey)
    ensures |q| >= 1 && q[0] == Name("stories")
  {
    Key(StoriesRoot, k)
  }

  /** `CreateStoryWithUploadParams`: the form's text fields and files. */
  datatype CreateStoryParams = CreateStoryParams(
    title: string,
    description: string,
    category: string,
    tags: string,
    titlePhoto: File,
    photos: seq<File>,
    audio: Option<File>,
    video: Option<File>)

  /** Step 1's request: the title photo, followed by the gallery unless there
      is a video. */
  function CreateUploadRequest(p: CreateStoryParams): UploadRequest
  {
    UploadRequest(Some(if p.video.Some? then [p.titlePhoto] else [p.titlePhoto] + p.photos), p.audio, p.video)
  }

  /** Step 2's payload, read positionally off the upload result. */
  function PayloadFromUpload(p: CreateStoryParams, u: UploadResult): StoryPayload
  {
    var keys := if u.photos.Some? then u.photos.value else [];
    StoryPayload(p.title, p.description, p.category, p.tags,
                 if |keys| > 0 then keys[0] else "",
                 if p.video.Some? || |keys| == 0 then [] else keys[1..],
                 TruthyOrAbsent(u.audio),
                 TruthyOrAbsent(u.video))
  }

  /** One run of the create mutation: the upload request, the create request
      if one was sent, and what the mutation resolves to. */
  datatype CreateRun<R> = CreateRun(upload: UploadRequest, create: Option<StoryRequest>, result: Result<R>)

  /** `useCreateStoryWithUpload`'s `mutationFn`: the upload is awaited; a
      failed upload ends the run before any story request; otherwise the
      payload built from the result goes through `createStory`. */
  function CreateWithUpload<R>(p: CreateStoryParams, uploadReply: Result<UploadResult>, createReply: Result<R>)
    : (run: CreateRun<R>)
    ensures run.upload == CreateUploadRequest(p)
    ensures UploadOutcome(run.upload, uploadReply).Failure? ==>
      run.create.None? && run.result == Failure(UploadOutcome(run.upload, uploadReply).error)
    ensures UploadOutcome(run.upload, uploadReply).Success? ==>
      var sent := CreateStory(PayloadFromUpload(p, UploadOutcome(run.upload, uploadReply).value));
      (run.create.Some? <==> sent.Success?)
      && (run.create.Some? ==> run.create.value == sent.value)
      && run.result == Settle(sent, createReply)
  {
    var req := CreateUploadRequest(p);
    match UploadOutcome(req, uploadReply)
    case Failure(e) => CreateRun(req, None, Failure(e))
    case Success(u) =>
      var sent := CreateStory(PayloadFromUpload(p, u));
      CreateRun(req, if sent.Success? then Some(sent.value) else None, Settle(sent, createReply))
  }

  /** The title photo always goes first, and the gallery is sent only without
      a video. */
  lemma UploadTitleFirst(p: CreateStoryParams)
    ensures var req := CreateUploadRequest(p);
      req.photos.Some? && |req.photos.value| >= 1 && req.photos.value[0] == p.titlePhoto
      && req.photos.value[1..] == (if p.video.Some? then [] else p.photos)
      && req.audio == p.audio && req.video == p.video
  {
  }

  /** With a gateway that answers the request, the positional split gives the
      title photo its own key and the gallery exactly the keys of its files,
      in order; media keys pass through. */
  lemma PositionalSplit(p: CreateStoryParams, u: UploadResult)
    requires Answers(CreateUploadRequest(p), u)
    ensures var s := PayloadFromUpload(p, u);
      s.titlePhoto == u.photos.value[0] && s.titlePhoto != ""
      && (p.video.Some? ==> s.photos == [])
      && (p.video.None? ==> [s.titlePhoto] + s.photos == u.photos.value && |s.photos| == |p.photos|)
      && (s.audio.Some? <==> p.audio.Some?) && (s.audio.Some? ==> s.audio == u.audio)
      && (s.video.Some? <==> p.video.Some?) && (s.video.Some? ==> s.video == u.video)
  {
    var keys := u.photos.value;
    assert [keys[0]] + keys[1..] == keys;
  }

  /** The story payload depends only on the text fields, on whether there is a
      video, and on the upload result: never on the files themselves. */
  lemma PayloadFromKeysOnly(p1: CreateStoryParams, p2: CreateStoryParams, u: UploadResult)
    requires p1.title == p2.title && p1.description == p2.description
    requires p1.category == p2.category && p1.tags == p2.tags
    requires p1.video.Some? == p2.video.Some?
    ensures PayloadFromUpload(p1, u) == PayloadFromUpload(p2, u)
  {
  }

  /** An audio story with one to nine gallery photos, answered by the gateway,
      is created with the keys it got back. */
  lemma AudioStoryCreated<R>(p: CreateStoryParams, u: UploadResult, createReply: Result<R>)
    requires p.audio.Some? && p.video.None? && 1 <= |p.photos| <= 9
    requires Answers(CreateUploadRequest(p), u)
    ensures var run := CreateWithUpload(p, Success(u), createReply);
      run.create == Some(StoryRequest(Post, "/stories/", PayloadFromUpload(p, u)))
      && run.result == createReply
  {
    PositionalSplit(p, u);
  }

  /** A video story, answered by the gateway, is created with no gallery,
      whatever photos the form still held. */
  lemma VideoStoryCreated<R>(p: CreateStoryParams, u: UploadResult, createReply: Result<R>)
    requires p.video.Some? && p.audio.None?
    requires Answers(CreateUploadRequest(p), u)
    ensures var run := CreateWithUpload(p, Success(u), createReply);
      run.create == Some(StoryRequest(Post, "/stories/", PayloadFromUpload(p, u)))
      && run.create.value.body.photos == []
      && run.result == createReply
  {
    PositionalSplit(p, u);
  }

  /** Ten gallery photos plus the title photo are eleven: the upload is
      rejected and no story request is made. */
  lemma TenGalleryPhotosRejected<R>(p: CreateStoryParams, uploadReply: Result<UploadResult>, createReply: Result<R>)
    requires p.video.None? && |p.photos| == 10
    ensures var run := CreateWithUpload(p, uploadReply, createReply);
      run.create.None? && run.result == Failure(Thrown(TooManyPhotosError))
  {
  }

  /** The guards run after the upload: with both an audio and a video file,
      both are uploaded and only then is the story rejected. */
  lemma BothMediaRejectedAfterUpload<R>(p: CreateStoryParams, u: UploadResult, createReply: Result<R>)
    requires p.audio.Some? && p.video.Some?
    requires Answers(CreateUploadRequest(p), u)
    ensures var run := CreateWithUpload(p, Success(u), createReply);
      run.upload.audio.Some? && run.upload.video.Some?
      && run.create.None? && run.result == Failure(Thrown(BothMediaError))
  {
    PositionalSplit(p, u);
  }

  const CreateFallback := "Failed to create story. Please try again."
  const UpdateFallback := "Failed to update story"
  const DeleteFallback := "Failed to delete story"

  /** The create toast: the server's message, else the error's own message,
      else the fallback. */
  function CreateErrorMessage(e: Error): string
  {
    ServerOrOwnMessageOr(e, CreateFallback)
  }

  /** The update and delete toasts consult only the server's message. */
  function UpdateErrorMessage(e: Error): string
  {
    ServerMessageOr(e, UpdateFallback)
  }

  function DeleteErrorMessage(e: Error): string
  {
    ServerMessageOr(e, DeleteFallback)
  }

  /** An error raised on the client (the photo limit, a guard) is shown as
      it is on create, while on update the guard's message is replaced by
      the fallback. */
  lemma ClientErrorsOnCreateAndUpdate(m: string)
    requires m != ""
    ensures CreateErrorMessage(Thrown(m)) == m
    ensures UpdateErrorMessage(Thrown(m)) == UpdateFallback
    ensures CreateErrorMessage(Thrown("")) == CreateFallback
  {
  }

  /** A message from the server wins on every mutation. */
  lemma ServerMessageWins(m: string, own: string)
    requires m != ""
    ensures CreateErrorMessage(Error(own, Some(m))) == m
    ensures UpdateErrorMessage(Error(own, Some(m))) == m
    ensures DeleteErrorMessage(Error(own, Some(m))) == m
  {
  }

  /** `onSuccess`/`onError` of the create mutation. */
  function CreateSettled<R>(filters: Filters, r: Result<R>): (s: Settled)
    ensures r.Success? ==> s.notice == NotifySuccess("Story created successfully")
    ensures r.Failure? ==> s == Settled([], NotifyError(CreateErrorMessage(r.error)))
  {
    if r.Success? then Settled([Invalidate(StoriesKey(Infinite(filters)))], NotifySuccess("Story created successfully"))
    else Settled([], NotifyError(CreateErrorMessage(r.error)))
  }

  /** `onSuccess`/`onError` of the update mutation. */
  function UpdateSettled<R>(filters: Filters, id: string, r: Result<R>): (s: Settled)
    ensures r.Success? ==> s.notice == NotifySuccess("Story updated successfully")
    ensures r.Failure? ==> s == Settled([], NotifyError(UpdateErrorMessage(r.error)))
  {
    if r.Success? then
      Settled([Invalidate(StoriesKey(Infinite(filters))), Invalidate(StoriesKey(Detail(id)))],
              NotifySuccess("Story updated successfully"))
    else Settled([], NotifyError(UpdateErrorMessage(r.error)))
  }

  /** `onSuccess`/`onError` of the delete mutation. */
  function DeleteSettled<R>(filters: Filters, id: string, r: Result<R>): (s: Settled)
    ensures r.Success? ==> s.notice == NotifySuccess("Story deleted successfully")
    ensures r.Failure? ==> s == Settled([], NotifyError(DeleteErrorMessage(r.error)))
  {
    if r.Success? then
      Settled([Invalidate(StoriesKey(Infinite(filters))), RemoveQueries(StoriesKey(Detail(id)))],
              NotifySuccess("Story deleted successfully"))
    else Settled([], NotifyError(DeleteErrorMessage(r.error)))
  }

  /** A created story refreshes the hook's list and every cached list whose
      filters extend the hook's (a search typed over the same sort), and no
      other story query. */
  lemma CreateReachesList<R>(filters: Filters, x: R, k: KeyKind)
    ensures Touched(CreateSettled(filters, Success(x)).cache, StoriesKey(k))
            <==> k.Infinite? && FiltersWithin(filters, k.filters)
  {
    var s := CreateSettled(filters, Success(x));
    KeyMatchesReached(StoriesRoot, Infinite(filters), k);
    assert s.cache[0].key == StoriesKey(Infinite(filters));
  }

  /** An updated story refreshes the lists that extend the hook's and its own
      detail, and nothing else. */
  lemma UpdateReachesListAndDetail<R>(filters: Filters, id: string, x: R, k: KeyKind)
    ensures Touched(UpdateSettled(filters, id, Success(x)).cache, StoriesKey(k))
            <==> (k.Infinite? && FiltersWithin(filters, k.filters)) || k == Detail(id)
  {
    var s := UpdateSettled(filters, id, Success(x));
    KeyMatchesReached(StoriesRoot, Infinite(filters), k);
    KeyMatchesReached(StoriesRoot, Detail(id), k);
    assert s.cache[0].key == StoriesKey(Infinite(filters)) && s.cache[1].key == StoriesKey(Detail(id));
  }

  /** A deleted story refreshes the lists that extend the hook's and drops
      its own detail, which is the only query removed. */
  lemma DeleteRemovesDetail<R>(filters: Filters, id: string, x: R, k: KeyKind)
    ensures var s := DeleteSettled(filters, id, Success(x));
      (Touched(s.cache, StoriesKey(k)) <==> (k.Infinite? && FiltersWithin(filters, k.filters)) || k == Detail(id))
      && (Removed(s.cache, StoriesKey(k)) <==> k == Detail(id))
  {
    var s := DeleteSettled(filters, id, Success(x));
    KeyMatchesReached(StoriesRoot, Infinite(filters), k);
    KeyMatchesReached(StoriesRoot, Detail(id), k);
    assert s.cache[0].key == StoriesKey(Infinite(filters)) && s.cache[1].key == StoriesKey(Detail(id));
  }

  /** With no search typed, the page's create, update and delete refresh the
      list the page shows while a search is typed, too. */
  lemma SearchListRefreshed<R>(filters: Filters, id: string, x: R, term: string)
    requires "search" !in filters
    ensures Touched(CreateSettled(filters, Success(x)).cache, StoriesKey(Infinite(filters["search" := term])))
    ensures Touched(UpdateSettled(filters, id, Success(x)).cache, StoriesKey(Infinite(filters["search" := term])))
    ensures Touched(DeleteSettled(filters, id, Success(x)).cache, StoriesKey(Infinite(filters["search" := term])))
  {
    var k := Infinite(filters["search" := term]);
    CreateReachesList(filters, x, k);
    UpdateReachesListAndDetail(filters, id, x, k);
    DeleteRemovesDetail(filters, id, x, k);
  }

  /** No story mutation ever reaches a mantra query. */
  lemma StoryMutationsSpareMantras<R>(filters: Filters, id: string, r: Result<R>, k: KeyKind)
    ensures !Touched(CreateSettled(filters, r).cache, Key("mantras", k))
    ensures !Touched(UpdateSettled(filters, id, r).cache, Key("mantras", k))
    ensures !Touched(DeleteSettled(filters, id, r).cache, Key("mantras", k))
  {
    RootsApart(StoriesRoot, Infinite(filters), "mantras", k);
    RootsApart(StoriesRoot, Detail(id), "mantras", k);
  }
}
