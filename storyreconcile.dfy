/** What submitting the story dialog produces, as functions of the dialog's
    pending media state, the form values and the gateway's reply: the upload
    request, the keys merged from the reply, the mode-switch rules, and the
    payload that goes to `updateStory`; and for a new story, the parameters of
    the create-with-upload mutation. The dialog's `Submit` method computes the
    same thing step by step. */
module StoryReconcile {
  import opened Common
  import opened Upload
  import opened StoryService
  import opened StoryForms
  import StoryQueries

  /** The dialog's media state when the form is submitted: the keys kept from
      the story being edited ("" for none) and the four "new file" flags. */
  datatype Pending = Pending(
    existingTitlePhoto: MediaKey,
    existingPhotos: seq<MediaKey>,
    existingAudio: MediaKey,
    existingVideo: MediaKey,
    hasNewTitlePhoto: bool,
    hasNewPhotos: bool,
    hasNewAudio: bool,
    hasNewVideo: bool)

  /** The `finalTitlePhoto`, `finalPhotos`, `finalAudio`, `finalVideo` keys. */
  datatype MediaKeys = MediaKeys(titlePhoto: MediaKey, photos: seq<MediaKey>, audio: MediaKey, video: MediaKey)

  function Existing(p: Pending): MediaKeys
  {
    MediaKeys(p.existingTitlePhoto, p.existingPhotos, p.existingAudio, p.existingVideo)
  }

  predicate NeedsUpload(p: Pending)
  {
    p.hasNewTitlePhoto || p.hasNewPhotos || p.hasNewAudio || p.hasNewVideo
  }

  /** In every state the dialog can reach, choosing a new file has cleared the
      existing key it replaces. */
  predicate Coherent(p: Pending)
  {
    && (p.hasNewTitlePhoto ==> p.existingTitlePhoto == "")
    && (p.hasNewAudio ==> p.existingAudio == "")
    && (p.hasNewVideo ==> p.existingVideo == "")
  }

  /** `photosToUpload`: the new title photo, then the new gallery files. */
  function PhotosToUpload(p: Pending, f: StoryForm): seq<File>
  {
    (if p.hasNewTitlePhoto && f.titlePhoto.Some? then [f.titlePhoto.value] else [])
    + (if p.hasNewPhotos then f.photos else [])
  }

  /** The edit upload: only what is new; an empty photo list is sent as null. */
  function EditUploadRequest(p: Pending, f: StoryForm): UploadRequest
  {
    var photos := PhotosToUpload(p, f);
    UploadRequest(if |photos| > 0 then Some(photos) else None,
                  if p.hasNewAudio then f.audio else None,
                  if p.hasNewVideo then f.video else None)
  }

  /** The keys after the upload result is merged in. The title photo takes the
      first returned key when it is new; the gallery appends the rest (or all
      keys, when the title photo did not take one) when gallery files are
      new; a returned audio key replaces the audio and clears the video; a
      returned video key replaces the video and clears the audio and the
      gallery, and is applied last. */
  function Merge(p: Pending, u: UploadResult): MediaKeys
  {
    var keys := if u.photos.Some? then u.photos.value else [];
    var titleTaken := p.hasNewTitlePhoto && |keys| > 0;
    var gallery :=
      if titleTaken then (if p.hasNewPhotos then p.existingPhotos + keys[1..] else p.existingPhotos)
      else if p.hasNewPhotos && u.photos.Some? then p.existingPhotos + keys
      else p.existingPhotos;
    var newAudio := p.hasNewAudio && Truthy(u.audio);
    var newVideo := p.hasNewVideo && Truthy(u.video);
    MediaKeys(
      if titleTaken then keys[0] else p.existingTitlePhoto,
      if newVideo then [] else gallery,
      if newVideo then "" else if newAudio then u.audio.value else p.existingAudio,
      if newVideo then u.video.value else if newAudio then "" else p.existingVideo)
  }

  /** The mode-switch rules: in audio mode an existing video that was not
      replaced is dropped; in video mode an existing audio that was not
      replaced is dropped together with the gallery. */
  function ModeSwitch(p: Pending, mediaType: MediaType, k: MediaKeys): MediaKeys
  {
    var dropVideo := mediaType == AudioMode && p.existingVideo != "" && !p.hasNewVideo;
    var dropAudio := mediaType == VideoMode && p.existingAudio != "" && !p.hasNewAudio;
    MediaKeys(k.titlePhoto,
              if dropAudio then [] else k.photos,
              if dropAudio then "" else k.audio,
              if dropVideo then "" else k.video)
  }

  /** The update payload: the form's text fields and the final keys, with an
      empty audio or video key left out. */
  function EditPayload(f: StoryForm, k: MediaKeys): StoryPayload
  {
    StoryPayload(f.title, f.description, f.category, f.tags, k.titlePhoto, k.photos,
                 KeyOrAbsent(k.audio), KeyOrAbsent(k.video))
  }

  /** One edit submission: the upload sent (if any), the update request sent
      (if any), and what the submission resolves to. */
  datatype EditRun<R> = EditRun(upload: Option<UploadRequest>, update: Option<StoryRequest>, result: Result<R>)

  /** The keys an edit ends with, given the upload result when there was an
      upload. */
  function FinalKeys(p: Pending, mediaType: MediaType, u: Option<UploadResult>): MediaKeys
  {
    ModeSwitch(p, mediaType, if u.Some? then Merge(p, u.value) else Existing(p))
  }

  /** The edit branch of `onSubmit`: an upload only when something is new; a
      failed upload ends it; otherwise the final keys go through `updateStory`. */
  function EditSubmission<R>(p: Pending, f: StoryForm, id: string, uploadReply: Result<UploadResult>, updateReply: Result<R>)
    : EditRun<R>
  {
    if !NeedsUpload(p) then
      var sent := UpdateStory(id, EditPayload(f, FinalKeys(p, f.mediaType, None)));
      EditRun(None, if sent.Success? then Some(sent.value) else None, Settle(sent, updateReply))
    else
      var req := EditUploadRequest(p, f);
      match UploadOutcome(req, uploadReply)
      case Failure(e) => EditRun(Some(req), None, Failure(e))
      case Success(u) =>
        var sent := UpdateStory(id, EditPayload(f, FinalKeys(p, f.mediaType, Some(u))));
        EditRun(Some(req), if sent.Success? then Some(sent.value) else None, Settle(sent, updateReply))
  }

  /** The create branch of `onSubmit`: the form's fields and files, the title
      photo being required by the create schema. */
  function CreateParams(f: StoryForm): StoryQueries.CreateStoryParams
    requires f.titlePhoto.Some?
  {
    StoryQueries.CreateStoryParams(f.title, f.description, f.category, f.tags, f.titlePhoto.value,
                                   f.photos, f.audio, f.video)
  }

  /** With no new file, nothing is uploaded and the payload carries the kept
      keys, changed only by the mode-switch rules. */
  lemma NoNewFilesNoUpload<R>(p: Pending, f: StoryForm, id: string, uploadReply: Result<UploadResult>, updateReply: Result<R>)
    requires !NeedsUpload(p)
    ensures var run := EditSubmission(p, f, id, uploadReply, updateReply);
      var k := FinalKeys(p, f.mediaType, None);
      run.upload.None?
      && (run.update.Some? ==> run.update.value == StoryRequest(Put, "/stories/" + id, EditPayload(f, k)))
      && k.titlePhoto == p.existingTitlePhoto
      && (f.mediaType == AudioMode ==>
            k.photos == p.existingPhotos && k.audio == p.existingAudio && k.video == "")
      && (f.mediaType == VideoMode ==>
            k.video == p.existingVideo && k.audio == ""
            && k.photos == (if p.existingAudio != "" then [] else p.existingPhotos))
  {
  }

  /** The photos sent are the new title photo, then the new gallery files, in
      order; when there are none, no photo list is sent. */
  lemma UploadPhotoOrder(p: Pending, f: StoryForm)
    requires p.hasNewTitlePhoto && f.titlePhoto.Some? && p.hasNewPhotos
    ensures var req := EditUploadRequest(p, f);
      req.photos == Some([f.titlePhoto.value] + f.photos)
    ensures var q := p.(hasNewTitlePhoto := false, hasNewPhotos := false);
      EditUploadRequest(q, f).photos.None?
  {
  }

  /** "Only new files" for audio and video too: the upload never carries a
      file whose flag is down. */
  lemma UploadOnlyNew(p: Pending, f: StoryForm)
    ensures var req := EditUploadRequest(p, f);
      (req.audio.Some? ==> p.hasNewAudio && req.audio == f.audio)
      && (req.video.Some? ==> p.hasNewVideo && req.video == f.video)
      && (req.photos.Some? ==> p.hasNewTitlePhoto || p.hasNewPhotos)
  {
  }

  /** The photo merge, before a new video empties the gallery: a new title
      photo takes the first key; the gallery keeps the existing keys first
      and appends the remaining keys only when gallery files are new; with
      only gallery files new, every key is appended. */
  lemma PhotoMerge(p: Pending, u: UploadResult)
    requires !(p.hasNewVideo && Truthy(u.video))
    ensures var k := Merge(p, u);
      (p.hasNewTitlePhoto && u.photos.Some? && |u.photos.value| > 0 ==>
         k.titlePhoto == u.photos.value[0]
         && k.photos == (if p.hasNewPhotos then p.existingPhotos + u.photos.value[1..] else p.existingPhotos))
      && (!p.hasNewTitlePhoto && p.hasNewPhotos && u.photos.Some? ==>
            k.titlePhoto == p.existingTitlePhoto && k.photos == p.existingPhotos + u.photos.value)
      && (!p.hasNewPhotos && !p.hasNewTitlePhoto ==> k.photos == p.existingPhotos)
  {
  }

  /** A returned audio key clears the video; a returned video key clears the
      audio and the gallery; with both, the video wins. */
  lemma AudioVideoOverrides(p: Pending, u: UploadResult)
    ensures var k := Merge(p, u);
      (p.hasNewAudio && Truthy(u.audio) && !(p.hasNewVideo && Truthy(u.video)) ==>
         k.audio == u.audio.value && k.video == "")
      && (p.hasNewVideo && Truthy(u.video) ==>
            k.video == u.video.value && k.audio == "" && k.photos == [])
      && (!(p.hasNewAudio && Truthy(u.audio)) && !(p.hasNewVideo && Truthy(u.video)) ==>
            k.audio == p.existingAudio && k.video == p.existingVideo)
  {
  }

  /** The mode-switch rules leave the title photo alone and only ever clear. */
  lemma ModeSwitchRules(p: Pending, mediaType: MediaType, k: MediaKeys)
    ensures var s := ModeSwitch(p, mediaType, k);
      s.titlePhoto == k.titlePhoto
      && (mediaType == AudioMode && p.existingVideo != "" && !p.hasNewVideo ==>
            s.video == "" && s.audio == k.audio && s.photos == k.photos)
      && (mediaType == VideoMode && p.existingAudio != "" && !p.hasNewAudio ==>
            s.audio == "" && s.photos == [] && s.video == k.video)
      && (s.audio == k.audio || s.audio == "") && (s.video == k.video || s.video == "")
      && (s.photos == k.photos || s.photos == [])
  {
  }

  /** With a gateway that answers, every new file's key lands where it
      belongs: the title photo's key becomes the title photo, and the key of
      the i-th new gallery file follows the kept keys at position i. */
  lemma {:induction false} PositionalMerge(p: Pending, f: StoryForm, u: UploadResult)
    requires p.hasNewTitlePhoto && f.titlePhoto.Some? && p.hasNewPhotos
    requires !(p.hasNewVideo && Truthy(u.video))
    requires Answers(EditUploadRequest(p, f), u)
    ensures var k := Merge(p, u);
      var sent := EditUploadRequest(p, f).photos.value;
      sent[0] == f.titlePhoto.value && k.titlePhoto == u.photos.value[0]
      && |k.photos| == |p.existingPhotos| + |f.photos|
      && k.photos[..|p.existingPhotos|] == p.existingPhotos
      && forall i :: 0 <= i < |f.photos| ==>
           sent[i + 1] == f.photos[i] && k.photos[|p.existingPhotos| + i] == u.photos.value[i + 1]
  {
    var keys := u.photos.value;
    var k := Merge(p, u);
    assert k.photos == p.existingPhotos + keys[1..];
  }

  /** In a coherent state the update never carries both an audio and a video,
      so the first guard of `updateStory` never fires. */
  lemma NeverBothAudioAndVideo(p: Pending, f: StoryForm, u: Option<UploadResult>)
    requires Coherent(p)
    ensures var k := FinalKeys(p, f.mediaType, u);
      k.audio == "" || k.video == ""
    ensures !(Truthy(EditPayload(f, FinalKeys(p, f.mediaType, u)).audio)
              && Truthy(EditPayload(f, FinalKeys(p, f.mediaType, u)).video))
  {
    var k := FinalKeys(p, f.mediaType, u);
    if u.Some? {
      AudioVideoOverrides(p, u.value);
    }
    assert k.audio == "" || k.video == "";
  }

  /** Without coherence the guarantee is lost: a state that kept an old
      video next to a "new video" flag with no key returned sends both. */
  lemma IncoherentStateSendsBoth(f: StoryForm)
    requires f.mediaType == VideoMode
    ensures var p := Pending("t", [], "a", "v", false, false, true, true);
      var k := FinalKeys(p, f.mediaType, Some(UploadResult(None, None, None)));
      k.audio == "a" && k.video == "v"
  {
  }

  /** Switching an audio story to video mode without choosing a video sends a
      story with neither audio nor video and no gallery, and the guards
      accept it. */
  lemma SwitchToVideoWithoutVideo<R>(p: Pending, f: StoryForm, id: string, uploadReply: Result<UploadResult>, updateReply: Result<R>)
    requires !NeedsUpload(p) && p.existingAudio != "" && p.existingVideo == ""
    requires f.mediaType == VideoMode
    ensures var run := EditSubmission(p, f, id, uploadReply, updateReply);
      run.update.Some?
      && run.update.value.body.audio.None? && run.update.value.body.video.None?
      && run.update.value.body.photos == []
      && run.result == updateReply
  {
    var k := FinalKeys(p, f.mediaType, None);
    assert k.audio == "" && k.video == "" && k.photos == [];
  }

  /** A new title photo and ten new gallery files make eleven: the edit's
      upload is rejected and no update is sent. */
  lemma EditElevenPhotosRejected<R>(p: Pending, f: StoryForm, id: string, uploadReply: Result<UploadResult>, updateReply: Result<R>)
    requires p.hasNewTitlePhoto && f.titlePhoto.Some? && p.hasNewPhotos && |f.photos| == 10
    ensures var run := EditSubmission(p, f, id, uploadReply, updateReply);
      run.upload.Some? && run.update.None? && run.result == Failure(Thrown(TooManyPhotosError))
  {
    assert |PhotosToUpload(p, f)| == 11;
  }

  /** A valid audio-mode form with up to nine gallery photos, answered by the
      gateway, creates a story whose payload passes every guard. */
  lemma CreateFromValidAudioForm<R>(f: StoryForm, u: UploadResult, createReply: Result<R>)
    requires CreateStorySchemaOk(f) && f.mediaType == AudioMode && f.video.None? && |f.photos| <= 9
    requires Answers(StoryQueries.CreateUploadRequest(CreateParams(f)), u)
    ensures var run := StoryQueries.CreateWithUpload(CreateParams(f), Success(u), createReply);
      run.create.Some? && run.result == createReply
  {
    StoryQueries.AudioStoryCreated(CreateParams(f), u, createReply);
  }

  /** The create schema accepts ten gallery photos in audio mode, yet such a
      story can never be created: the upload gets eleven photos. */
  lemma CreateSchemaAdmitsRejectedUpload<R>(f: StoryForm, uploadReply: Result<UploadResult>, createReply: Result<R>)
    requires CreateStorySchemaOk(f) && f.mediaType == AudioMode && f.video.None? && |f.photos| == 10
    ensures var run := StoryQueries.CreateWithUpload(CreateParams(f), uploadReply, createReply);
      run.create.None? && run.result == Failure(Thrown(TooManyPhotosError))
  {
    StoryQueries.TenGalleryPhotosRejected(CreateParams(f), uploadReply, createReply);
  }
}
