/** The mantra query hooks: the `mantrasKey` factory, create-with-upload, and
    what the mutations do when they settle. The mantra record endpoints have
    no client-side checks: `createMantra` posts and `updateMantra` puts the
    payload as it is. */
module MantraQueries {
  import opened Common
  import opened Upload
  import opened Queries

  const MantrasRoot := "mantras"

  /** `mantrasKey.<kind>(…)`. */
  function MantrasKey(k: KeyKind): (q: QueryKey)
    ensures |q| >= 1 && q[0] == Name("mantras")
  {
    Key(MantrasRoot, k)
  }

  /** `MantraCreateType`; the create path may leave `audio` undefined when the
      gateway returned no audio key. */
  datatype MantraPayload = MantraPayload(
    title: string,
    description: string,
    tags: string,
    photos: seq<MediaKey>,
    audio: Option<MediaKey>)

  datatype MantraRequest = MantraRequest(verb: Verb, path: string, body: MantraPayload)

  /** `createMantra(mantraData)`. */
  function CreateMantra(m: MantraPayload): MantraRequest
  {
    MantraRequest(Post, "/mantras/", m)
  }

  /** `updateMantra(_id, mantraData)`. */
  function UpdateMantra(id: string, m: MantraPayload): MantraRequest
  {
    MantraRequest(Put, "/mantras/" + id, m)
  }

  /** `CreateMantraWithUploadParams`. */
  datatype CreateMantraParams = CreateMantraParams(
    title: string,
    description: string,
    tags: string,
    photos: seq<File>,
    audio: File)

  /** Step 1's request: the photos and the audio, never a video. */
  function CreateUploadRequest(p: CreateMantraParams): UploadRequest
  {
    UploadRequest(Some(p.photos), Some(p.audio), None)
  }

  /** Step 2's payload: the returned photo keys (none if absent) and audio key. */
  function PayloadFromUpload(p: CreateMantraParams, u: UploadResult): MantraPayload
  {
    MantraPayload(p.title, p.description, p.tags, if u.photos.Some? then u.photos.value else [], u.audio)
  }

  datatype CreateRun<R> = CreateRun(upload: UploadRequest, create: Option<MantraRequest>, result: Result<R>)

  /** `useCreateMantraWithUpload`'s `mutationFn`: upload, then create from the
      keys returned; a failed upload ends the run before any mantra request. */
  function CreateWithUpload<R>(p: CreateMantraParams, uploadReply: Result<UploadResult>, createReply: Result<R>)
    : (run: CreateRun<R>)
    ensures run.upload == CreateUploadRequest(p)
    ensures UploadOutcome(run.upload, uploadReply).Failure? ==>
      run.create.None? && run.result == Failure(UploadOutcome(run.upload, uploadReply).error)
    ensures UploadOutcome(run.upload, uploadReply).Success? ==>
      run.create == Some(CreateMantra(PayloadFromUpload(p, UploadOutcome(run.upload, uploadReply).value)))
      && run.result == createReply
  {
    var req := CreateUploadRequest(p);
    match UploadOutcome(req, uploadReply)
    case Failure(e) => CreateRun(req, None, Failure(e))
    case Success(u) => CreateRun(req, Some(CreateMantra(PayloadFromUpload(p, u))), createReply)
  }

  /** With one to ten photos and a gateway that answers, the mantra is created
      with one key per photo in upload order, the returned audio key and the
      text fields unchanged. */
  lemma MantraCreated<R>(p: CreateMantraParams, u: UploadResult, createReply: Result<R>)
    requires 1 <= |p.photos| <= 10
    requires Answers(CreateUploadRequest(p), u)
    ensures var run := CreateWithUpload(p, Success(u), createReply);
      run.create.Some?
      && var m := run.create.value.body;
      m.photos == u.photos.value && |m.photos| == |p.photos|
      && Truthy(m.audio)
      && m.title == p.title && m.description == p.description && m.tags == p.tags
      && run.result == createReply
  {
  }

  /** Eleven photos are rejected by the upload and no mantra request is made. */
  lemma ElevenPhotosRejected<R>(p: CreateMantraParams, uploadReply: Result<UploadResult>, createReply: Result<R>)
    requires |p.photos| == 11
    ensures var run := CreateWithUpload(p, uploadReply, createReply);
      run.create.None? && run.result == Failure(Thrown(TooManyPhotosError))
  {
  }

  const CreateFallback := "Failed to create mantra. Please try again."
  const UpdateFallback := "Failed to update mantra"
  const DeleteFallback := "Failed to delete mantra"

  /** Every mantra toast consults only the server's message. */
  function CreateErrorMessage(e: Error): string
  {
    ServerMessageOr(e, CreateFallback)
  }

  function UpdateErrorMessage(e: Error): string
  {
    ServerMessageOr(e, UpdateFallback)
  }

  function DeleteErrorMessage(e: Error): string
  {
    ServerMessageOr(e, DeleteFallback)
  }

  /** Unlike stories, a client-side error such as the photo limit is not
      shown on create: the toast is the fallback; a server message still wins. */
  lemma ClientErrorHidden(m: string, own: string)
    requires m != ""
    ensures CreateErrorMessage(Thrown(TooManyPhotosError)) == CreateFallback
    ensures CreateErrorMessage(Error(own, Some(m))) == m
  {
  }

  /** `onSuccess`/`onError` of the create mutation. */
  function CreateSettled<R>(filters: Filters, r: Result<R>): (s: Settled)
    ensures r.Success? ==> s.notice == NotifySuccess("Mantra created successfully")
    ensures r.Failure? ==> s == Settled([], NotifyError(CreateErrorMessage(r.error)))
  {
    if r.Success? then Settled([Invalidate(MantrasKey(Infinite(filters)))], NotifySuccess("Mantra created successfully"))
    else Settled([], NotifyError(CreateErrorMessage(r.error)))
  }

  /** `onSuccess`/`onError` of the update mutation. */
  function UpdateSettled<R>(filters: Filters, id: string, r: Result<R>): (s: Settled)
    ensures r.Success? ==> s.notice == NotifySuccess("Mantra updated successfully")
    ensures r.Failure? ==> s == Settled([], NotifyError(UpdateErrorMessage(r.error)))
  {
    if r.Success? then
      Settled([Invalidate(MantrasKey(Infinite(filters))), Invalidate(MantrasKey(Detail(id)))],
              NotifySuccess("Mantra updated successfully"))
    else Settled([], NotifyError(UpdateErrorMessage(r.error)))
  }

  /** `onSuccess`/`onError` of the delete mutation. */
  function DeleteSettled<R>(filters: Filters, id: string, r: Result<R>): (s: Settled)
    ensures r.Success? ==> s.notice == NotifySuccess("Mantra deleted successfully")
    ensures r.Failure? ==> s == Settled([], NotifyError(DeleteErrorMessage(r.error)))
  {
    if r.Success? then
      Settled([Invalidate(MantrasKey(Infinite(filters))), RemoveQueries(MantrasKey(Detail(id)))],
              NotifySuccess("Mantra deleted successfully"))
    else Settled([], NotifyError(DeleteErrorMessage(r.error)))
  }

  /** A created mantra refreshes the hook's list and every cached list whose
      filters extend the hook's (a search typed over the same sort), and no
      other mantra query. */
  lemma CreateReachesList<R>(filters: Filters, x: R, k: KeyKind)
    ensures Touched(CreateSettled(filters, Success(x)).cache, MantrasKey(k))
            <==> k.Infinite? && FiltersWithin(filters, k.filters)
  {
    var s := CreateSettled(filters, Success(x));
    KeyMatchesReached(MantrasRoot, Infinite(filters), k);
    assert s.cache[0].key == MantrasKey(Infinite(filters));
  }

  /** An updated mantra refreshes the lists that extend the hook's and its own
      detail, and nothing else. */
  lemma UpdateReachesListAndDetail<R>(filters: Filters, id: string, x: R, k: KeyKind)
    ensures Touched(UpdateSettled(filters, id, Success(x)).cache, MantrasKey(k))
            <==> (k.Infinite? && FiltersWithin(filters, k.filters)) || k == Detail(id)
  {
    var s := UpdateSettled(filters, id, Success(x));
    KeyMatchesReached(MantrasRoot, Infinite(filters), k);
    KeyMatchesReached(MantrasRoot, Detail(id), k);
    assert s.cache[0].key == MantrasKey(Infinite(filters)) && s.cache[1].key == MantrasKey(Detail(id));
  }

  /** A deleted mantra refreshes the lists that extend the hook's and drops
      its own detail, which is the only query removed. */
  lemma DeleteRemovesDetail<R>(filters: Filters, id: string, x: R, k: KeyKind)
    ensures var s := DeleteSettled(filters, id, Success(x));
      (Touched(s.cache, MantrasKey(k)) <==> (k.Infinite? && FiltersWithin(filters, k.filters)) || k == Detail(id))
      && (Removed(s.cache, MantrasKey(k)) <==> k == Detail(id))
  {
    var s := DeleteSettled(filters, id, Success(x));
    KeyMatchesReached(MantrasRoot, Infinite(filters), k);
    KeyMatchesReached(MantrasRoot, Detail(id), k);
    assert s.cache[0].key == MantrasKey(Infinite(filters)) && s.cache[1].key == MantrasKey(Detail(id));
  }
}
