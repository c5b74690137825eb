/** The story dialog component as an object: its form values, previews, kept
    keys and "new file" flags are fields, each handler is a method that
    changes exactly what the component's handler changes, and `Submit` runs
    the schema and then the edit or create path. The server's replies are the
    caller's parameters. */
module StoryDialog {
  import opened Common
  import opened Upload
  import opened StoryService
  import opened StoryForms
  import opened StoryReconcile
  import FormRules
  import StoryQueries

  /** The story record the edit dialog is seeded from; any property may be
      missing. */
  datatype StoryRecord = StoryRecord(
    title: Option<string>,
    description: Option<string>,
    category: Option<string>,
    tags: Option<string>,
    titlePhoto: Option<MediaKey>,
    photos: Option<seq<MediaKey>>,
    audio: Option<MediaKey>,
    video: Option<MediaKey>)

  /** `value || fallback` on an optional string. */
  function OrElse(o: Option<string>, fallback: string): (s: string)
    ensures Truthy(o) ==> s == o.value
    ensures !Truthy(o) ==> s == fallback
  {
    if Truthy(o) then o.value else fallback
  }

  /** The form an edit dialog is reset to: the record's text fields (empty, or
      "mythology" for the category, when missing), audio mode exactly when the
      record has an audio key, and no files. */
  function SeededForm(r: StoryRecord): (f: StoryForm)
    ensures f.mediaType == AudioMode <==> Truthy(r.audio)
    ensures f.titlePhoto.None? && f.photos == [] && f.audio.None? && f.video.None?
    ensures f.title == OrElse(r.title, "") && f.description == OrElse(r.description, "")
    ensures f.tags == OrElse(r.tags, "")
    ensures f.category == (if Truthy(r.category) then r.category.value else "mythology")
  {
    StoryForm(OrElse(r.title, ""), OrElse(r.description, ""), OrElse(r.category, "mythology"),
              OrElse(r.tags, ""), if Truthy(r.audio) then AudioMode else VideoMode,
              None, [], None, None)
  }

  /** The media state an edit dialog starts from: the record's keys and no
      new file. */
  function SeededPending(r: StoryRecord): (p: Pending)
    ensures !NeedsUpload(p) && Coherent(p)
    ensures p.existingTitlePhoto == OrElse(r.titlePhoto, "")
    ensures p.existingPhotos == (if r.photos.Some? then r.photos.value else [])
    ensures p.existingAudio == OrElse(r.audio, "") && p.existingVideo == OrElse(r.video, "")
  {
    Pending(OrElse(r.titlePhoto, ""), if r.photos.Some? then r.photos.value else [],
            OrElse(r.audio, ""), OrElse(r.video, ""), false, false, false, false)
  }

  const TitlePhotoTypeError := "Please upload a valid image file"
  const AudioTypeError := "Please upload a valid audio file (MP3)"
  const VideoTypeError := "Please upload a valid video file"
  const CurrentAudioName := "Current audio file"
  const CurrentVideoName := "Current video file"

  /** The dialog's preview state: what each file picker shows, and the
      audio and video file names. */
  datatype Previews = Previews(
    titlePhoto: Option<File>,
    photos: seq<File>,
    audio: Option<File>,
    video: Option<File>,
    audioFileName: string,
    videoFileName: string)

  const NoPreviews := Previews(None, [], None, None, "", "")

  /** No kept key and no "new file" flag. */
  const NoMedia := Pending("", [], "", "", false, false, false, false)

  /** What one press of the submit button did. */
  datatype SubmitOutcome<R> =
    | NotSubmitted
    | Edited(edit: EditRun<R>)
    | Created(create: StoryQueries.CreateRun<R>)

  /** Whether the save resolved, so that the dialog resets and closes. */
  predicate Saved<R>(o: SubmitOutcome<R>)
  {
    match o
    case NotSubmitted => false
    case Edited(run) => run.result.Success?
    case Created(run) => run.result.Success?
  }

  class Dialog {
    const isEditMode: bool
    const storyId: Option<string>
    var isOpen: bool
    var form: StoryForm
    /** The messages set on fields by the handlers, by field name. */
    var errors: map<string, string>
    var previews: Previews
    /** The keys kept from the story being edited ("" for none) and the four
        "new file" flags. */
    var media: Pending

    /** The states the handlers keep: choosing a file cleared the key it
        replaces, every preview shows its file, the title-photo flag tracks
        the chosen title photo, a chosen audio, video or gallery has its flag
        up, and kept and chosen gallery photos together are at most ten. An
        edit dialog always has a story id. */
    predicate Valid()
      reads this
    {
      && Coherent(media)
      && previews.titlePhoto == form.titlePhoto && previews.photos == form.photos
      && previews.audio == form.audio && previews.video == form.video
      && (media.hasNewTitlePhoto <==> form.titlePhoto.Some?)
      && (form.audio.Some? ==> media.hasNewAudio)
      && (form.video.Some? ==> media.hasNewVideo)
      && (form.photos != [] ==> media.hasNewPhotos && |media.existingPhotos| + |form.photos| <= 10)
      && (isEditMode ==> Truthy(storyId))
    }

    /** The schema the form resolver applies in this dialog's mode. */
    predicate SchemaOk()
      reads this
    {
      if isEditMode then EditStorySchemaOk(form) else CreateStorySchemaOk(form)
    }

    constructor(editMode: bool, id: Option<string>)
      requires editMode ==> Truthy(id)
      ensures isEditMode == editMode && storyId == id
      ensures !isOpen && form == EmptyForm() && errors == map[] && previews == NoPreviews && media == NoMedia
      ensures Valid()
    {
      isEditMode, storyId := editMode, id;
      isOpen := false;
      form, errors := EmptyForm(), map[];
      previews, media := NoPreviews, NoMedia;
    }

    /** `clearAllPreviews`: previews, file names, kept keys and flags, not the form. */
    method ClearAllPreviews()
      modifies this`previews, this`media
      ensures previews == NoPreviews && media == NoMedia
    {
      previews := NoPreviews;
      media := NoMedia;
    }

    /** `handleCancel`: the form is reset, its errors dropped, everything
        cleared and the dialog closed. */
    method HandleCancel()
      requires isEditMode ==> Truthy(storyId)
      modifies this
      ensures form == EmptyForm() && errors == map[] && previews == NoPreviews && media == NoMedia && !isOpen
      ensures Valid()
    {
      form, errors := EmptyForm(), map[];
      ClearAllPreviews();
      isOpen := false;
    }

    /** Opening the dialog. A create dialog is reset and cleared; an edit
        dialog waits for its story (`ReceiveStory`). */
    method Open()
      requires Valid()
      modifies this
      ensures isOpen
      ensures !isEditMode ==> form == EmptyForm() && errors == map[] && previews == NoPreviews && media == NoMedia
      ensures isEditMode ==>
        form == old(form) && errors == old(errors) && previews == old(previews) && media == old(media)
      ensures Valid()
    {
      isOpen := true;
      if !isEditMode {
        form, errors := EmptyForm(), map[];
        ClearAllPreviews();
      }
    }

    /** The seeding effect: an open edit dialog that receives its story
        resets the form from it, keeps its keys, clears the previews and
        flags, and names the current audio and video (other file names stay
        as they were). Otherwise nothing happens. */
    method ReceiveStory(r: StoryRecord)
      requires Valid()
      modifies this
      ensures !(isEditMode && old(isOpen)) ==> unchanged(this)
      ensures isEditMode && old(isOpen) ==>
        isOpen && form == SeededForm(r) && errors == map[] && media == SeededPending(r)
        && previews == NoPreviews.(
             audioFileName := if Truthy(r.audio) then CurrentAudioName else old(previews.audioFileName),
             videoFileName := if Truthy(r.video) then CurrentVideoName else old(previews.videoFileName))
      ensures Valid()
    {
      if isEditMode && isOpen {
        form, errors := SeededForm(r), map[];
        media := SeededPending(r);
        var audioFileName, videoFileName := previews.audioFileName, previews.videoFileName;
        if Truthy(r.audio) {
          audioFileName := CurrentAudioName;
        }
        if Truthy(r.video) {
          videoFileName := CurrentVideoName;
        }
        previews := Previews(None, [], None, None, audioFileName, videoFileName);
      }
    }

    /** `handleTitlePhotoChange`: an image replaces the title photo and its
        kept key; another file only sets the field's error; no file does nothing. */
    method HandleTitlePhotoChange(file: Option<File>)
      requires Valid()
      modifies this`form, this`errors, this`previews, this`media
      ensures file.Some? && FormRules.IsImageFile(file.value) ==>
        form == old(form).(titlePhoto := file) && previews == old(previews).(titlePhoto := file)
        && media == old(media).(existingTitlePhoto := "", hasNewTitlePhoto := true) && errors == old(errors)
      ensures file.Some? && !FormRules.IsImageFile(file.value) ==>
        errors == old(errors)["titlePhoto" := TitlePhotoTypeError]
      ensures !(file.Some? && FormRules.IsImageFile(file.value)) ==>
        form == old(form) && previews == old(previews) && media == old(media)
      ensures file.None? ==> errors == old(errors)
      ensures Valid()
    {
      if file.Some? {
        if !StartsWith(file.value.mimeType, "image/") {
          errors := errors["titlePhoto" := TitlePhotoTypeError];
          return;
        }
        form := form.(titlePhoto := file);
        previews := previews.(titlePhoto := file);
        media := media.(existingTitlePhoto := "");
        media := media.(hasNewTitlePhoto := true);
      }
    }

    /** `handleRemoveTitlePhoto`: the chosen title photo is dropped. */
    method HandleRemoveTitlePhoto()
      requires Valid()
      modifies this`form, this`previews, this`media
      ensures form == old(form).(titlePhoto := None) && previews == old(previews).(titlePhoto := None)
      ensures media == old(media).(hasNewTitlePhoto := false)
      ensures Valid()
    {
      form := form.(titlePhoto := None);
      previews := previews.(titlePhoto := None);
      media := media.(hasNewTitlePhoto := false);
    }

    /** `handleRemoveExistingTitlePhoto`. */
    method HandleRemoveExistingTitlePhoto()
      requires Valid()
      modifies this`media
      ensures media == old(media).(existingTitlePhoto := "")
      ensures Valid()
    {
      media := media.(existingTitlePhoto := "");
    }

    /** `handlePhotoChange`: the chosen files replace the gallery selection
        unless, with the kept photos, they exceed ten, which only sets the
        field's error naming the kept count. An empty selection does nothing. */
    method HandlePhotoChange(files: seq<File>)
      requires Valid()
      modifies this`form, this`errors, this`previews, this`media
      ensures files != [] && |media.existingPhotos| + |files| <= 10 ==>
        form == old(form).(photos := files) && previews == old(previews).(photos := files)
        && media == old(media).(hasNewPhotos := true) && errors == old(errors)
      ensures files != [] && |media.existingPhotos| + |files| > 10 ==>
        errors == old(errors)["photos" := FormRules.PhotoLimitError(|media.existingPhotos|)]
      ensures !(files != [] && |media.existingPhotos| + |files| <= 10) ==>
        form == old(form) && previews == old(previews) && media == old(media)
      ensures files == [] ==> errors == old(errors)
      ensures Valid()
    {
      if |files| > 0 {
        var totalPhotos := |media.existingPhotos| + |files|;
        if totalPhotos > 10 {
          errors := errors["photos" := FormRules.PhotoLimitError(|media.existingPhotos|)];
          return;
        }
        form := form.(photos := files);
        previews := previews.(photos := files);
        media := media.(hasNewPhotos := true);
      }
    }

    /** `handleRemovePhoto`: drops the chosen file at `index` and its preview;
        the flag goes down when no chosen file is left. */
    method HandleRemovePhoto(index: int)
      requires Valid()
      modifies this`form, this`previews, this`media
      ensures form == old(form).(photos := RemoveAt(old(form.photos), index))
      ensures previews == old(previews).(photos := RemoveAt(old(previews.photos), index))
      ensures media == old(media).(hasNewPhotos := form.photos != [] && old(media.hasNewPhotos))
      ensures Valid()
    {
      var updatedPhotos := RemoveAt(form.photos, index);
      form := form.(photos := updatedPhotos);
      previews := previews.(photos := RemoveAt(previews.photos, index));
      if |updatedPhotos| == 0 {
        media := media.(hasNewPhotos := false);
      }
    }

    /** `handleRemoveExistingPhoto`: drops the kept key at `index`. */
    method HandleRemoveExistingPhoto(index: int)
      requires Valid()
      modifies this`media
      ensures media == old(media).(existingPhotos := RemoveAt(old(media.existingPhotos), index))
      ensures Valid()
    {
      media := media.(existingPhotos := RemoveAt(media.existingPhotos, index));
    }

    /** `handleAudioChange`: an `audio/` file replaces the audio and its kept
        key and names the file; another file only sets the field's error. */
    method HandleAudioChange(file: Option<File>)
      requires Valid()
      modifies this`form, this`errors, this`previews, this`media
      ensures file.Some? && StartsWith(file.value.mimeType, "audio/") ==>
        form == old(form).(audio := file)
        && previews == old(previews).(audio := file, audioFileName := file.value.name)
        && media == old(media).(existingAudio := "", hasNewAudio := true) && errors == old(errors)
      ensures file.Some? && !StartsWith(file.value.mimeType, "audio/") ==>
        errors == old(errors)["audio" := AudioTypeError]
      ensures !(file.Some? && StartsWith(file.value.mimeType, "audio/")) ==>
        form == old(form) && previews == old(previews) && media == old(media)
      ensures file.None? ==> errors == old(errors)
      ensures Valid()
    {
      if file.Some? {
        if !StartsWith(file.value.mimeType, "audio/") {
          errors := errors["audio" := AudioTypeError];
          return;
        }
        form := form.(audio := file);
        previews := previews.(audio := file);
        previews := previews.(audioFileName := file.value.name);
        media := media.(existingAudio := "");
        media := media.(hasNewAudio := true);
      }
    }

    /** `handleRemoveAudio`. */
    method HandleRemoveAudio()
      requires Valid()
      modifies this`form, this`previews, this`media
      ensures form == old(form).(audio := None)
      ensures previews == old(previews).(audio := None, audioFileName := "")
      ensures media == old(media).(hasNewAudio := false)
      ensures Valid()
    {
      form := form.(audio := None);
      previews := previews.(audio := None, audioFileName := "");
      media := media.(hasNewAudio := false);
    }

    /** `handleRemoveExistingAudio`. */
    method HandleRemoveExistingAudio()
      requires Valid()
      modifies this`media
      ensures media == old(media).(existingAudio := "")
      ensures Valid()
    {
      media := media.(existingAudio := "");
    }

    /** `handleVideoChange`: a `video/` file replaces the video and its kept
        key and names the file; another file only sets the field's error. */
    method HandleVideoChange(file: Option<File>)
      requires Valid()
      modifies this`form, this`errors, this`previews, this`media
      ensures file.Some? && FormRules.IsVideoFile(file.value) ==>
        form == old(form).(video := file)
        && previews == old(previews).(video := file, videoFileName := file.value.name)
        && media == old(media).(existingVideo := "", hasNewVideo := true) && errors == old(errors)
      ensures file.Some? && !FormRules.IsVideoFile(file.value) ==>
        errors == old(errors)["video" := VideoTypeError]
      ensures !(file.Some? && FormRules.IsVideoFile(file.value)) ==>
        form == old(form) && previews == old(previews) && media == old(media)
      ensures file.None? ==> errors == old(errors)
      ensures Valid()
    {
      if file.Some? {
        if !StartsWith(file.value.mimeType, "video/") {
          errors := errors["video" := VideoTypeError];
          return;
        }
        form := form.(video := file);
        previews := previews.(video := file);
        previews := previews.(videoFileName := file.value.name);
        media := media.(existingVideo := "");
        media := media.(hasNewVideo := true);
      }
    }

    /** `handleRemoveVideo`. */
    method HandleRemoveVideo()
      requires Valid()
      modifies this`form, this`previews, this`media
      ensures form == old(form).(video := None)
      ensures previews == old(previews).(video := None, videoFileName := "")
      ensures media == old(media).(hasNewVideo := false)
      ensures Valid()
    {
      form := form.(video := None);
      previews := previews.(video := None, videoFileName := "");
      media := media.(hasNewVideo := false);
    }

    /** `handleRemoveExistingVideo`. */
    method HandleRemoveExistingVideo()
      requires Valid()
      modifies this`media
      ensures media == old(media).(existingVideo := "")
      ensures Valid()
    {
      media := media.(existingVideo := "");
    }

    /** The "Audio" radio: audio mode, and the chosen video is dropped. The
        flags and kept keys are not touched. */
    method SelectAudioMode()
      requires Valid()
      modifies this`form, this`previews
      ensures form == old(form).(mediaType := AudioMode, video := None)
      ensures previews == old(previews).(video := None, videoFileName := "")
      ensures Valid()
    {
      form := form.(mediaType := AudioMode);
      form := form.(video := None);
      previews := previews.(video := None, videoFileName := "");
    }

    /** The "Video" radio: video mode, and the chosen audio and gallery are
        dropped. The flags and kept keys are not touched. */
    method SelectVideoMode()
      requires Valid()
      modifies this`form, this`previews
      ensures form == old(form).(mediaType := VideoMode, audio := None, photos := [])
      ensures previews == old(previews).(audio := None, audioFileName := "", photos := [])
      ensures Valid()
    {
      form := form.(mediaType := VideoMode);
      form := form.(audio := None);
      form := form.(photos := []);
      previews := previews.(audio := None, audioFileName := "", photos := []);
    }

    /** Lines 504-518 of `onSubmit`: the photos to upload (the new title
        photo, then the new gallery files) and the new audio and video. */
    method BuildUploadRequest(data: StoryForm) returns (req: UploadRequest)
      ensures req == EditUploadRequest(media, data)
    {
      var photosToUpload: seq<File> := [];
      if media.hasNewTitlePhoto && data.titlePhoto.Some? {
        photosToUpload := photosToUpload + [data.titlePhoto.value];
      }
      if media.hasNewPhotos {
        photosToUpload := photosToUpload + data.photos;
      }
      assert photosToUpload == PhotosToUpload(media, data);
      req := UploadRequest(if |photosToUpload| > 0 then Some(photosToUpload) else None,
                           if media.hasNewAudio then data.audio else None,
                           if media.hasNewVideo then data.video else None);
    }

    /** Lines 520-547 of `onSubmit`: the final keys start as the kept keys
        and the upload result is merged in, title photo, gallery, audio and
        video in turn. */
    method MergeUploadResult(result: UploadResult) returns (keys: MediaKeys)
      ensures keys == Merge(media, result)
    {
      var finalTitlePhoto := media.existingTitlePhoto;
      var finalPhotos := media.existingPhotos;
      var finalAudio := media.existingAudio;
      var finalVideo := media.existingVideo;
      if media.hasNewTitlePhoto && result.photos.Some? && |result.photos.value| > 0 {
        finalTitlePhoto := result.photos.value[0];
        if media.hasNewPhotos {
          finalPhotos := media.existingPhotos + result.photos.value[1..];
        }
      } else if media.hasNewPhotos && result.photos.Some? {
        finalPhotos := media.existingPhotos + result.photos.value;
      }
      if media.hasNewAudio && Truthy(result.audio) {
        finalAudio := result.audio.value;
        finalVideo := "";
      }
      if media.hasNewVideo && Truthy(result.video) {
        finalVideo := result.video.value;
        finalAudio := "";
        finalPhotos := [];
      }
      keys := MediaKeys(finalTitlePhoto, finalPhotos, finalAudio, finalVideo);
    }

    /** Lines 550-559 of `onSubmit`: the mode-switch rules applied to the keys. */
    method ApplyModeSwitch(mediaType: MediaType, keys: MediaKeys) returns (final: MediaKeys)
      ensures final == ModeSwitch(media, mediaType, keys)
    {
      var finalPhotos, finalAudio, finalVideo := keys.photos, keys.audio, keys.video;
      if mediaType == AudioMode && media.existingVideo != "" && !media.hasNewVideo {
        finalVideo := "";
      }
      if mediaType == VideoMode && media.existingAudio != "" && !media.hasNewAudio {
        finalAudio := "";
        finalPhotos := [];
      }
      final := MediaKeys(keys.titlePhoto, finalPhotos, finalAudio, finalVideo);
    }

    /** The edit branch of `onSubmit`, step by step: start from the kept keys,
        upload what is new, merge the returned keys, apply the mode-switch
        rules and send the update. It is the edit submission of the current
        media state; in a coherent state the update never carries both an
        audio and a video. */
    method ComputeEdit<R>(data: StoryForm, id: string, uploadReply: Result<UploadResult>, updateReply: Result<R>)
      returns (run: EditRun<R>)
      ensures run == EditSubmission(media, data, id, uploadReply, updateReply)
      ensures Coherent(media) && run.update.Some? ==>
        !(Truthy(run.update.value.body.audio) && Truthy(run.update.value.body.video))
    {
      var keys := Existing(media);
      var upload: Option<UploadRequest> := None;
      ghost var u: Option<UploadResult> := None;

      var needsUpload := media.hasNewTitlePhoto || media.hasNewPhotos || media.hasNewAudio || media.hasNewVideo;
      if needsUpload {
        var req := BuildUploadRequest(data);
        upload := Some(req);
        var _, outcome := UploadMedia(req, uploadReply);
        if outcome.Failure? {
          return EditRun(upload, None, Failure(outcome.error));
        }
        u := Some(outcome.value);
        keys := MergeUploadResult(outcome.value);
      }
      keys := ApplyModeSwitch(data.mediaType, keys);

      var payload := StoryPayload(data.title, data.description, data.category, data.tags,
                                  keys.titlePhoto, keys.photos, KeyOrAbsent(keys.audio), KeyOrAbsent(keys.video));
      var sent := UpdateStory(id, payload);
      run := EditRun(upload, if sent.Success? then Some(sent.value) else None, Settle(sent, updateReply));
      assert keys == FinalKeys(media, data.mediaType, u);
      if Coherent(media) {
        NeverBothAudioAndVideo(media, data, u);
      }
    }

    /** The submit button. When the mode's schema rejects the form nothing is
        sent and nothing changes. Otherwise the parsed values go down the
        edit path (an edit dialog) or the create-with-upload mutation (a
        create dialog); a save that resolves resets and closes the dialog, a
        failed one leaves it as it was. */
    method Submit<R>(uploadReply: Result<UploadResult>, saveReply: Result<R>) returns (outcome: SubmitOutcome<R>)
      requires Valid()
      modifies this
      ensures !old(SchemaOk()) ==> outcome == NotSubmitted
      ensures old(SchemaOk()) && isEditMode ==>
        outcome == Edited(EditSubmission(old(media), Parsed(old(form)), storyId.value, uploadReply, saveReply))
      ensures old(SchemaOk()) && !isEditMode ==>
        old(form).titlePhoto.Some?
        && outcome == Created(StoryQueries.CreateWithUpload(CreateParams(Parsed(old(form))), uploadReply, saveReply))
      ensures Saved(outcome) ==>
        form == EmptyForm() && errors == map[] && previews == NoPreviews && media == NoMedia && !isOpen
      ensures !Saved(outcome) ==> unchanged(this)
      ensures Valid()
    {
      if !SchemaOk() {
        return NotSubmitted;
      }
      var data := Parsed(form);
      if isEditMode && Truthy(storyId) {
        var run := ComputeEdit(data, storyId.value, uploadReply, saveReply);
        outcome := Edited(run);
      } else {
        var run := StoryQueries.CreateWithUpload(CreateParams(data), uploadReply, saveReply);
        outcome := Created(run);
      }
      if Saved(outcome) {
        HandleCancel();
      }
    }
  }

  /** Submitting an edit untouched since seeding keeps the record's media: the
      title photo and gallery are the record's, and its audio, or else its
      video, is kept, with nothing uploaded. */
  lemma {:induction false} UntouchedEditKeepsMedia<R>(r: StoryRecord, id: string, uploadReply: Result<UploadResult>, updateReply: Result<R>)
    requires !(Truthy(r.audio) && Truthy(r.video))
    ensures var f := SeededForm(r);
      var run := EditSubmission(SeededPending(r), f, id, uploadReply, updateReply);
      var k := FinalKeys(SeededPending(r), f.mediaType, None);
      run.upload.None?
      && k == MediaKeys(OrElse(r.titlePhoto, ""), if r.photos.Some? then r.photos.value else [],
                        OrElse(r.audio, ""), OrElse(r.video, ""))
  {
    NoNewFilesNoUpload(SeededPending(r), SeededForm(r), id, uploadReply, updateReply);
  }

  /** A record with both an audio and a video opens in audio mode, and an
      untouched edit drops its video. */
  lemma BothMediaRecordDropsVideo(r: StoryRecord)
    requires Truthy(r.audio) && Truthy(r.video)
    ensures var k := FinalKeys(SeededPending(r), SeededForm(r).mediaType, None);
      k.audio == r.audio.value && k.video == ""
  {
  }

  /** Removing the second of three kept photos from a seeded audio story
      sends the other two, in order, with nothing uploaded. */
  method RemoveKeptPhotoScenario<R>(updateReply: Result<R>) returns (run: EditRun<R>)
    ensures run.upload.None? && run.update.Some?
    ensures run.update.value.body.photos == ["a.jpg", "c.jpg"]
    ensures run.update.value.body.titlePhoto == "t.jpg" && run.update.value.body.audio == Some("s.mp3")
    ensures run.result == updateReply
  {
    var d := new Dialog(true, Some("42"));
    d.Open();
    d.ReceiveStory(StoryRecord(Some("Ramayana"), Some("The journey of Rama"), Some("epic"), Some("rama"),
                               Some("t.jpg"), Some(["a.jpg", "b.jpg", "c.jpg"]), Some("s.mp3"), None));
    d.HandleRemoveExistingPhoto(1);
    assert d.media.existingPhotos == ["a.jpg", "c.jpg"];
    run := d.ComputeEdit(Parsed(d.form), "42", Failure(Thrown("unused")), updateReply);
  }

  /** With no kept photos, an edit dialog can hold a new title photo and ten
      gallery files, and that upload is rejected. */
  method ElevenPhotoEditScenario<R>(t: File, ps: seq<File>, updateReply: Result<R>) returns (run: EditRun<R>)
    requires FormRules.IsImageFile(t) && |ps| == 10
    ensures run.upload.Some? && run.update.None? && run.result == Failure(Thrown(TooManyPhotosError))
  {
    var d := new Dialog(true, Some("7"));
    d.Open();
    d.ReceiveStory(StoryRecord(None, None, None, None, None, None, Some("s.mp3"), None));
    d.HandleTitlePhotoChange(Some(t));
    d.HandlePhotoChange(ps);
    assert d.form.photos == ps && d.media.hasNewTitlePhoto && d.media.hasNewPhotos;
    run := d.ComputeEdit(Parsed(d.form), "7", Success(UploadResult(None, None, None)), updateReply);
    EditElevenPhotosRejected(d.media, Parsed(d.form), "7", Success(UploadResult(None, None, None)), updateReply);
  }
}
