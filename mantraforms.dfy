/** The mantra form and its two zod schemas: `createMantraSchema`, which
    needs one to ten photos and an audio file, and `editMantraSchema`, where
    both are optional. */
module MantraForms {
  import opened Common
  import opened FormRules

  /** `MantraFormType`: the text fields and the chosen files. */
  datatype MantraForm = MantraForm(
    title: string,
    description: string,
    tags: string,
    photos: seq<File>,
    audio: Option<File>)

  /** The values `form.reset` restores. */
  const EmptyMantraForm := MantraForm("", "", "", [], None)

  /** `createMantraSchema`. */
  predicate CreateMantraSchemaOk(f: MantraForm)
  {
    && TextFieldsOk(f.title, f.description, f.tags)
    && 1 <= |f.photos| <= 10
    && f.audio.Some? && IsAudioFile(f.audio.value)
  }

  /** `editMantraSchema`. */
  predicate EditMantraSchemaOk(f: MantraForm)
  {
    && TextFieldsOk(f.title, f.description, f.tags)
    && |f.photos| <= 10
    && (f.audio.Some? ==> IsAudioFile(f.audio.value))
  }

  /** Every form the create schema accepts, the edit schema accepts; without
      photos or without audio, only the edit schema can. */
  lemma CreateMantraStricterThanEdit(f: MantraForm)
    ensures CreateMantraSchemaOk(f) ==> EditMantraSchemaOk(f)
    ensures f.photos == [] || f.audio.None? ==> !CreateMantraSchemaOk(f)
  {
  }

  /** The reset form fails both schemas. */
  lemma EmptyMantraFormRejected()
    ensures !CreateMantraSchemaOk(EmptyMantraForm) && !EditMantraSchemaOk(EmptyMantraForm)
  {
  }

  /** The values the schema hands to the submit handler: the text fields
      trimmed, the files as they were. */
  function ParsedMantra(f: MantraForm): (g: MantraForm)
    ensures g.photos == f.photos && g.audio == f.audio
    ensures |g.title| <= |f.title| && |g.description| <= |f.description| && |g.tags| <= |f.tags|
    ensures TrimmedFrom(g.title, f.title) && TrimmedFrom(g.description, f.description)
    ensures TrimmedFrom(g.tags, f.tags)
  {
    f.(title := Trim(f.title), description := Trim(f.description), tags := Trim(f.tags))
  }
}
