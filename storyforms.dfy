/** The story form and its two zod schemas: `createStorySchema`, with the
    media refinements, and `editStorySchema`, where every file is optional.
    The schemas are predicates over the form's values. */
module StoryForms {
  import opened Common
  import opened FormRules

  datatype MediaType = AudioMode | VideoMode

  /** `StoryFormType`: the text fields, the radio choice and the chosen files. */
  datatype StoryForm = StoryForm(
    title: string,
    description: string,
    category: string,
    tags: string,
    mediaType: MediaType,
    titlePhoto: Option<File>,
    photos: seq<File>,
    audio: Option<File>,
    video: Option<File>)

  const Categories: seq<string> := ["mythology", "festival", "epic", "devotional", "puranas"]

  /** The values `form.reset` restores: empty text, "mythology", audio mode,
      no files. */
  function EmptyForm(): StoryForm
  {
    StoryForm("", "", "mythology", "", AudioMode, None, [], None, None)
  }

  /** The field rules both schemas share. */
  predicate StoryFieldsOk(f: StoryForm)
  {
    && TextFieldsOk(f.title, f.description, f.tags)
    && f.category in Categories
    && |f.photos| <= 10
    && (f.titlePhoto.Some? ==> IsImageFile(f.titlePhoto.value))
    && (f.audio.Some? ==> IsAudioFile(f.audio.value))
    && (f.video.Some? ==> IsVideoFile(f.video.value))
  }

  /** `createStorySchema`: a title photo is required; audio mode needs an
      audio file and a photo, video mode a video file and no photos. */
  predicate CreateStorySchemaOk(f: StoryForm)
  {
    && StoryFieldsOk(f)
    && f.titlePhoto.Some?
    && (f.mediaType == AudioMode ==> f.audio.Some? && |f.photos| > 0)
    && (f.mediaType == VideoMode ==> f.video.Some? && f.photos == [])
  }

  /** `editStorySchema`: the shared rules only. */
  predicate EditStorySchemaOk(f: StoryForm)
  {
    StoryFieldsOk(f)
  }

  /** Everything the create schema accepts, the edit schema accepts; the
      converse fails, for instance without a title photo. */
  lemma CreateStricterThanEdit(f: StoryForm)
    ensures CreateStorySchemaOk(f) ==> EditStorySchemaOk(f)
    ensures EditStorySchemaOk(f) && f.titlePhoto.None? ==> !CreateStorySchemaOk(f)
  {
  }

  /** The reset form fails both schemas: the title is too short. */
  lemma EmptyFormRejected()
    ensures !EditStorySchemaOk(EmptyForm()) && !CreateStorySchemaOk(EmptyForm())
  {
  }

  /** The create schema lets ten gallery photos through in audio mode, one
      more than the upload can take next to the title photo. */
  lemma CreateAllowsTenGalleryPhotos(f: StoryForm)
    requires TextFieldsOk(f.title, f.description, f.tags) && f.category == "epic"
    requires f.mediaType == AudioMode && |f.photos| == 10
    requires f.titlePhoto.Some? && IsImageFile(f.titlePhoto.value)
    requires f.audio.Some? && IsAudioFile(f.audio.value) && f.video.None?
    ensures CreateStorySchemaOk(f)
  {
  }

  /** A tag list with an empty segment fails both schemas. */
  lemma EmptyTagSegmentRejected(f: StoryForm, a: string, b: string)
    requires f.tags == a + ",," + b
    ensures !EditStorySchemaOk(f) && !CreateStorySchemaOk(f)
  {
    AdjacentCommasRejected(a, b);
    TrimKeepsTagSegments(a + ",," + b);
  }

  /** The values the schema hands to the submit handler: the text fields
      trimmed, everything else as it was. */
  function Parsed(f: StoryForm): (g: StoryForm)
    ensures TrimmedFrom(g.title, f.title) && TrimmedFrom(g.description, f.description)
    ensures TrimmedFrom(g.tags, f.tags)
    ensures g.category == f.category && g.mediaType == f.mediaType
    ensures g.titlePhoto == f.titlePhoto && g.photos == f.photos && g.audio == f.audio && g.video == f.video
  {
    f.(title := Trim(f.title), description := Trim(f.description), tags := Trim(f.tags))
  }
}
