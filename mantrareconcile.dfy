/** What submitting the mantra dialog produces, as functions of the dialog's
    kept keys and flags, the form values and the gateway's reply. The
    dialog's `ComputeEdit` method computes the same thing step by step. */
module MantraReconcile {
  import opened Common
  import opened Upload
  import opened MantraForms
  import opened MantraQueries

  /** The kept photo and audio keys ("" for no audio) and the two
      "new file" flags. */
  datatype MantraMedia = MantraMedia(
    existingPhotos: seq<MediaKey>,
    existingAudio: MediaKey,
    hasNewPhotos: bool,
    hasNewAudio: bool)

  predicate NeedsUpload(m: MantraMedia)
  {
    m.hasNewPhotos || m.hasNewAudio
  }

  /** The edit upload: the new photos and the new audio, never a video. */
  function EditUploadRequest(m: MantraMedia, f: MantraForm): UploadRequest
  {
    UploadRequest(if m.hasNewPhotos then Some(f.photos) else None,
                  if m.hasNewAudio then f.audio else None,
                  None)
  }

  /** The final photo keys: the returned keys follow the kept ones when
      photos are new and the gateway returned a list. */
  function MergedPhotos(m: MantraMedia, u: UploadResult): seq<MediaKey>
  {
    if m.hasNewPhotos && u.photos.Some? then m.existingPhotos + u.photos.value else m.existingPhotos
  }

  /** The final audio key: a returned key replaces the kept one when the
      audio is new. */
  function MergedAudio(m: MantraMedia, u: UploadResult): MediaKey
  {
    if m.hasNewAudio && Truthy(u.audio) then u.audio.value else m.existingAudio
  }

  /** The update payload: the audio key is always sent, empty when there is none. */
  function EditPayload(f: MantraForm, photos: seq<MediaKey>, audio: MediaKey): MantraPayload
  {
    MantraPayload(f.title, f.description, f.tags, photos, Some(audio))
  }

  /** One edit submission: the upload sent (if any), the update request, and
      what the submission resolves to. */
  datatype EditRun<R> = EditRun(upload: Option<UploadRequest>, update: Option<MantraRequest>, result: Result<R>)

  /** The edit branch of `onSubmit`. */
  function EditSubmission<R>(m: MantraMedia, f: MantraForm, id: string, uploadReply: Result<UploadResult>, updateReply: Result<R>)
    : EditRun<R>
  {
    if !NeedsUpload(m) then
      EditRun(None, Some(UpdateMantra(id, EditPayload(f, m.existingPhotos, m.existingAudio))), updateReply)
    else
      var req := EditUploadRequest(m, f);
      match UploadOutcome(req, uploadReply)
      case Failure(e) => EditRun(Some(req), None, Failure(e))
      case Success(u) =>
        EditRun(Some(req), Some(UpdateMantra(id, EditPayload(f, MergedPhotos(m, u), MergedAudio(m, u)))), updateReply)
  }

  /** The create branch of `onSubmit`, the audio being required by the
      create schema. */
  function CreateParams(f: MantraForm): CreateMantraParams
    requires f.audio.Some?
  {
    CreateMantraParams(f.title, f.description, f.tags, f.photos, f.audio.value)
  }

  /** With no new file nothing is uploaded and the update carries the kept
      keys and the form's text. */
  lemma NoNewFilesKeepKeys<R>(m: MantraMedia, f: MantraForm, id: string, uploadReply: Result<UploadResult>, updateReply: Result<R>)
    requires !NeedsUpload(m)
    ensures var run := EditSubmission(m, f, id, uploadReply, updateReply);
      run.upload.None? && run.result == updateReply
      && run.update == Some(MantraRequest(Put, "/mantras/" + id,
                                          MantraPayload(f.title, f.description, f.tags, m.existingPhotos, Some(m.existingAudio))))
  {
  }

  /** The upload carries exactly the new files: the new photos as chosen,
      the new audio, and nothing whose flag is down. */
  lemma UploadOnlyNew(m: MantraMedia, f: MantraForm)
    ensures var req := EditUploadRequest(m, f);
      (req.photos.Some? <==> m.hasNewPhotos) && (req.photos.Some? ==> req.photos.value == f.photos)
      && (req.audio.Some? ==> m.hasNewAudio && req.audio == f.audio)
      && req.video.None?
  {
  }

  /** New photos that fit beside the kept ones never trip the upload's
      photo limit. */
  lemma WithinLimitNeverRejected(m: MantraMedia, f: MantraForm)
    requires m.hasNewPhotos ==> |m.existingPhotos| + |f.photos| <= 10
    ensures !TooManyPhotos(EditUploadRequest(m, f))
  {
  }

  /** With a gateway that answers, the final gallery is the kept keys
      followed by one key per new photo, at most ten in all when the dialog
      kept the total within ten; a new audio gets the returned key. */
  lemma {:induction false} AnsweredEditMerges(m: MantraMedia, f: MantraForm, u: UploadResult)
    requires m.hasNewPhotos && f.photos != []
    requires Answers(EditUploadRequest(m, f), u)
    ensures var k := MergedPhotos(m, u);
      |k| == |m.existingPhotos| + |f.photos|
      && k[..|m.existingPhotos|] == m.existingPhotos
      && (|m.existingPhotos| + |f.photos| <= 10 ==> |k| <= 10)
    ensures m.hasNewAudio && f.audio.Some? ==> MergedAudio(m, u) == u.audio.value && MergedAudio(m, u) != ""
  {
    var req := EditUploadRequest(m, f);
    assert PhotoCount(req) == |f.photos| > 0;
    assert MergedPhotos(m, u) == m.existingPhotos + u.photos.value;
  }

  /** Removing the kept audio without choosing a new one sends an empty
      audio key rather than leaving the field out. */
  lemma RemovedAudioSentEmpty<R>(m: MantraMedia, f: MantraForm, id: string, uploadReply: Result<UploadResult>, updateReply: Result<R>)
    requires m.existingAudio == "" && !m.hasNewAudio
    ensures var run := EditSubmission(m, f, id, uploadReply, updateReply);
      run.update.Some? ==> run.update.value.body.audio == Some("")
  {
  }

  /** A returned audio key that is empty keeps the kept key: the merge only
      takes a truthy key. */
  lemma EmptyAudioKeyKeepsOld(m: MantraMedia, u: UploadResult)
    requires m.hasNewAudio && u.audio == Some("")
    ensures MergedAudio(m, u) == m.existingAudio
  {
  }
}
