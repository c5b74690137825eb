/** The mantra dialog component as an object: form values, previews, kept
    keys and "new file" flags are fields, each handler is a method, and
    `Submit` runs the schema and then the edit or create path. */
module MantraDialog {
  import opened Common
  import opened Upload
  import opened MantraForms
  import opened MantraReconcile
  import FormRules
  import MantraQueries

  /** The mantra record the edit dialog is seeded from; any property may be
      missing. */
  datatype MantraRecord = MantraRecord(
    title: Option<string>,
    description: Option<string>,
    tags: Option<string>,
    photos: Option<seq<MediaKey>>,
    audio: Option<MediaKey>)

  /** `value || ""`. */
  function OrEmpty(o: Option<string>): (s: string)
    ensures Truthy(o) ==> s == o.value
    ensures !Truthy(o) ==> s == ""
  {
    if Truthy(o) then o.value else ""
  }

  /** The form an edit dialog is reset to: the record's text, no files. */
  function SeededForm(r: MantraRecord): (f: MantraForm)
    ensures f.photos == [] && f.audio.None?
    ensures f.title == OrEmpty(r.title) && f.description == OrEmpty(r.description) && f.tags == OrEmpty(r.tags)
  {
    MantraForm(OrEmpty(r.title), OrEmpty(r.description), OrEmpty(r.tags), [], None)
  }

  /** The media state an edit dialog starts from: the record's keys, no flag. */
  function SeededMedia(r: MantraRecord): (m: MantraMedia)
    ensures !NeedsUpload(m)
    ensures m.existingPhotos == (if r.photos.Some? then r.photos.value else [])
    ensures m.existingAudio == OrEmpty(r.audio)
  {
    MantraMedia(if r.photos.Some? then r.photos.value else [], OrEmpty(r.audio), false, false)
  }

  const AudioTypeError := "Please upload a valid audio file (MP3)"
  const CurrentAudioName := "Current audio file"

  /** What the photo and audio pickers show. */
  datatype MantraPreviews = MantraPreviews(photos: seq<File>, audio: Option<File>, audioFileName: string)

  const NoPreviews := MantraPreviews([], None, "")
  const NoMedia := MantraMedia([], "", false, false)

  /** What one press of the submit button did. */
  datatype SubmitOutcome<R> =
    | NotSubmitted
    | Edited(edit: EditRun<R>)
    | Created(create: MantraQueries.CreateRun<R>)

  /** Whether the save resolved, so that the dialog resets and closes. */
  predicate Saved<R>(o: SubmitOutcome<R>)
  {
    match o
    case NotSubmitted => false
    case Edited(run) => run.result.Success?
    case Created(run) => run.result.Success?
  }

  class Dialog {
    const isEditMode: bool
    const mantraId: Option<string>
    var isOpen: bool
    var form: MantraForm
    /** The messages set on fields by the handlers, by field name. */
    var errors: map<string, string>
    var previews: MantraPreviews
    var media: MantraMedia

    /** The states the handlers keep: the previews show the chosen files, a
        flag is up exactly when its file is chosen, a new audio has cleared
        the kept one, and kept and chosen photos together are at most ten.
        An edit dialog always has a mantra id. */
    predicate Valid()
      reads this
    {
      && previews.photos == form.photos && previews.audio == form.audio
      && (media.hasNewPhotos <==> form.photos != [])
      && (media.hasNewAudio <==> form.audio.Some?)
      && (media.hasNewAudio ==> media.existingAudio == "")
      && (form.photos != [] ==> |media.existingPhotos| + |form.photos| <= 10)
      && (isEditMode ==> Truthy(mantraId))
    }

    predicate SchemaOk()
      reads this
    {
      if isEditMode then EditMantraSchemaOk(form) else CreateMantraSchemaOk(form)
    }

    constructor(editMode: bool, id: Option<string>)
      requires editMode ==> Truthy(id)
      ensures isEditMode == editMode && mantraId == id
      ensures !isOpen && form == EmptyMantraForm && errors == map[] && previews == NoPreviews && media == NoMedia
      ensures Valid()
    {
      isEditMode, mantraId := editMode, id;
      isOpen := false;
      form, errors := EmptyMantraForm, map[];
      previews, media := NoPreviews, NoMedia;
    }

    /** `handleCancel`, and likewise the effect that runs when the dialog
        closes: the form, previews, kept keys and flags are all reset. */
    method HandleCancel()
      requires isEditMode ==> Truthy(mantraId)
      modifies this
      ensures form == EmptyMantraForm && errors == map[] && previews == NoPreviews && media == NoMedia && !isOpen
      ensures Valid()
    {
      form, errors := EmptyMantraForm, map[];
      previews, media := NoPreviews, NoMedia;
      isOpen := false;
    }

    /** Opening the dialog: a create dialog is reset; an edit dialog waits for
        its mantra (`ReceiveMantra`). */
    method Open()
      requires Valid()
      modifies this
      ensures isOpen
      ensures !isEditMode ==> form == EmptyMantraForm && errors == map[] && previews == NoPreviews && media == NoMedia
      ensures isEditMode ==>
        form == old(form) && errors == old(errors) && previews == old(previews) && media == old(media)
      ensures Valid()
    {
      isOpen := true;
      if !isEditMode {
        form, errors := EmptyMantraForm, map[];
        previews, media := NoPreviews, NoMedia;
      }
    }

    /** The seeding effect: an open edit dialog that receives its mantra
        resets the form from it, keeps its keys, clears the previews and
        flags, and names the current audio when there is one. Otherwise
        nothing happens. */
    method ReceiveMantra(r: MantraRecord)
      requires Valid()
      modifies this
      ensures !(isEditMode && old(isOpen)) ==> unchanged(this)
      ensures isEditMode && old(isOpen) ==>
        isOpen && form == SeededForm(r) && errors == map[] && media == SeededMedia(r)
        && previews == NoPreviews.(audioFileName := if Truthy(r.audio) then CurrentAudioName else "")
      ensures Valid()
    {
      if isEditMode && isOpen {
        form, errors := SeededForm(r), map[];
        media := SeededMedia(r);
        previews := MantraPreviews([], None, if Truthy(r.audio) then CurrentAudioName else "");
      }
    }

    /** `handlePhotoChange`: the chosen files replace the selection unless,
        with the kept photos, they exceed ten, which only sets the field's
        error naming the kept count. An empty selection does nothing. */
    method HandlePhotoChange(files: seq<File>)
      requires Valid()
      modifies this`form, this`errors, this`previews, this`media
      ensures files != [] && |media.existingPhotos| + |files| <= 10 ==>
        form == old(form).(photos := files) && previews == old(previews).(photos := files)
        && media == old(media).(hasNewPhotos := true) && errors == old(errors)
      ensures files != [] && |media.existingPhotos| + |files| > 10 ==>
        errors == old(errors)["photos" := FormRules.PhotoLimitError(|media.existingPhotos|)]
      ensures !(files != [] && |media.existingPhotos| + |files| <= 10) ==>
        form == old(form) && previews == old(previews) && media == old(media)
      ensures files == [] ==> errors == old(errors)
      ensures Valid()
    {
      if |files| > 0 {
        var totalPhotos := |media.existingPhotos| + |files|;
        if totalPhotos > 10 {
          errors := errors["photos" := FormRules.PhotoLimitError(|media.existingPhotos|)];
          return;
        }
        form := form.(photos := files);
        previews := previews.(photos := files);
        media := media.(hasNewPhotos := true);
      }
    }

    /** `handleRemovePhoto`: drops the chosen file at `index` and its
        preview; the flag goes down when none is left. */
    method HandleRemovePhoto(index: int)
      requires Valid()
      modifies this`form, this`previews, this`media
      ensures form == old(form).(photos := RemoveAt(old(form.photos), index))
      ensures previews == old(previews).(photos := RemoveAt(old(previews.photos), index))
      ensures media == old(media).(hasNewPhotos := form.photos != [] && old(media.hasNewPhotos))
      ensures Valid()
    {
      var updatedPhotos := RemoveAt(form.photos, index);
      form := form.(photos := updatedPhotos);
      previews := previews.(photos := RemoveAt(previews.photos, index));
      if |updatedPhotos| == 0 {
        media := media.(hasNewPhotos := false);
      }
    }

    /** `handleRemoveExistingPhoto`: drops the kept key at `index`. */
    method HandleRemoveExistingPhoto(index: int)
      requires Valid()
      modifies this`media
      ensures media == old(media).(existingPhotos := RemoveAt(old(media.existingPhotos), index))
      ensures Valid()
    {
      media := media.(existingPhotos := RemoveAt(media.existingPhotos, index));
    }

    /** `handleAudioChange`: an `audio/` file replaces the audio and its kept
        key and names the file; another file only sets the field's error. */
    method HandleAudioChange(file: Option<File>)
      requires Valid()
      modifies this`form, this`errors, this`previews, this`media
      ensures file.Some? && StartsWith(file.value.mimeType, "audio/") ==>
        form == old(form).(audio := file)
        && previews == old(previews).(audio := file, audioFileName := file.value.name)
        && media == old(media).(existingAudio := "", hasNewAudio := true) && errors == old(errors)
      ensures file.Some? && !StartsWith(file.value.mimeType, "audio/") ==>
        errors == old(errors)["audio" := AudioTypeError]
      ensures !(file.Some? && StartsWith(file.value.mimeType, "audio/")) ==>
        form == old(form) && previews == old(previews) && media == old(media)
      ensures file.None? ==> errors == old(errors)
      ensures Valid()
    {
      if file.Some? {
        if !StartsWith(file.value.mimeType, "audio/") {
          errors := errors["audio" := AudioTypeError];
          return;
        }
        form := form.(audio := file);
        previews := previews.(audio := file, audioFileName := file.value.name);
        media := media.(existingAudio := "", hasNewAudio := true);
      }
    }

    /** `handleRemoveAudio`. */
    method HandleRemoveAudio()
      requires Valid()
      modifies this`form, this`previews, this`media
      ensures form == old(form).(audio := None)
      ensures previews == old(previews).(audio := None, audioFileName := "")
      ensures media == old(media).(hasNewAudio := false)
      ensures Valid()
    {
      form := form.(audio := None);
      previews := previews.(audio := None, audioFileName := "");
      media := media.(hasNewAudio := false);
    }

    /** `handleRemoveExistingAudio`. */
    method HandleRemoveExistingAudio()
      requires Valid()
      modifies this`media
      ensures media == old(media).(existingAudio := "")
      ensures Valid()
    {
      media := media.(existingAudio := "");
    }

    /** The edit branch of `onSubmit`, step by step: start from the kept
        keys, upload only what is new, merge the returned keys and send the
        update. It is the edit submission of the current media state, and
        when new photos and kept ones are within ten, the update is withheld
        only when the gateway's reply is a failure. */
    method ComputeEdit<R>(data: MantraForm, id: string, uploadReply: Result<UploadResult>, updateReply: Result<R>)
      returns (run: EditRun<R>)
      ensures run == EditSubmission(media, data, id, uploadReply, updateReply)
      ensures (media.hasNewPhotos ==> |media.existingPhotos| + |data.photos| <= 10) && run.update.None? ==>
        uploadReply.Failure? && run.result == Failure(uploadReply.error)
    {
      var finalPhotos := media.existingPhotos;
      var finalAudio := media.existingAudio;
      var upload: Option<UploadRequest> := None;

      var needsUpload := media.hasNewPhotos || media.hasNewAudio;
      if needsUpload {
        var req := UploadRequest(if media.hasNewPhotos then Some(data.photos) else None,
                                 if media.hasNewAudio then data.audio else None,
                                 None);
        upload := Some(req);
        if media.hasNewPhotos ==> |media.existingPhotos| + |data.photos| <= 10 {
          WithinLimitNeverRejected(media, data);
        }
        var _, outcome := UploadMedia(req, uploadReply);
        if outcome.Failure? {
          return EditRun(upload, None, Failure(outcome.error));
        }
        var result := outcome.value;
        if media.hasNewPhotos && result.photos.Some? {
          finalPhotos := media.existingPhotos + result.photos.value;
        }
        if media.hasNewAudio && Truthy(result.audio) {
          finalAudio := result.audio.value;
        }
      }
      var payload := MantraQueries.MantraPayload(data.title, data.description, data.tags, finalPhotos, Some(finalAudio));
      run := EditRun(upload, Some(MantraQueries.UpdateMantra(id, payload)), updateReply);
    }

    /** The submit button. When the mode's schema rejects the form nothing is
        sent and nothing changes. Otherwise the parsed values go down the
        edit path or the create-with-upload mutation; a save that resolves
        resets and closes the dialog, a failed one leaves it as it was. */
    method Submit<R>(uploadReply: Result<UploadResult>, saveReply: Result<R>) returns (outcome: SubmitOutcome<R>)
      requires Valid()
      modifies this
      ensures !old(SchemaOk()) ==> outcome == NotSubmitted
      ensures old(SchemaOk()) && isEditMode ==>
        outcome == Edited(EditSubmission(old(media), ParsedMantra(old(form)), mantraId.value, uploadReply, saveReply))
      ensures old(SchemaOk()) && !isEditMode ==>
        old(form).audio.Some?
        && outcome == Created(MantraQueries.CreateWithUpload(CreateParams(ParsedMantra(old(form))), uploadReply, saveReply))
      ensures outcome.Edited? && outcome.edit.update.None? ==> uploadReply.Failure?
      ensures Saved(outcome) ==>
        form == EmptyMantraForm && errors == map[] && previews == NoPreviews && media == NoMedia && !isOpen
      ensures !Saved(outcome) ==> unchanged(this)
      ensures Valid()
    {
      if !SchemaOk() {
        return NotSubmitted;
      }
      var data := ParsedMantra(form);
      if isEditMode && Truthy(mantraId) {
        var run := ComputeEdit(data, mantraId.value, uploadReply, saveReply);
        outcome := Edited(run);
      } else {
        var run := MantraQueries.CreateWithUpload(CreateParams(data), uploadReply, saveReply);
        outcome := Created(run);
      }
      if Saved(outcome) {
        HandleCancel();
      }
    }
  }

  /** Three kept photos leave room for seven: choosing eight only sets the
      error naming the three kept photos, and choosing seven is accepted. */
  method PhotoLimitScenario(eight: seq<File>) returns (rejected: string, accepted: seq<File>)
    requires |eight| == 8
    ensures rejected == FormRules.PhotoLimitError(3)
    ensures accepted == eight[..7]
  {
    var d := new Dialog(true, Some("m1"));
    d.Open();
    d.ReceiveMantra(MantraRecord(Some("Gayatri"), None, None, Some(["p1", "p2", "p3"]), Some("a1")));
    d.HandlePhotoChange(eight);
    rejected := d.errors["photos"];
    d.HandlePhotoChange(eight[..7]);
    accepted := d.form.photos;
  }
}
