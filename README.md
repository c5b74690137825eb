# Zofox-Pointz admin dashboard: media and form core in Dafny

This project models the core of the Pointz admin dashboard, a React front end
for managing stories and mantras. Each story or mantra is text plus media
(photos, an audio file, a video) that live in an S3 bucket under opaque keys.

The model covers:

- **The two edit/create dialogs** (`StoryDialog`, `MantraDialog`), as classes.
  Their fields are:
  - the form values;
  - the previews;
  - the media keys kept from the record being edited (`existing*`);
  - the four "new file" flags (`hasNew*`);
  - the field errors set by the handlers.

  Every handler is a method that changes exactly what the component's handler
  changes. Each method keeps a `Valid()` invariant that ties the flags, the
  previews and the photo limit to the form. `Submit` runs the mode's schema
  and then either:
  - the edit path: upload only the new files, merge the returned keys
    positionally, apply the mode-switch rules, send the update; or
  - the create-with-upload mutation.
- **The zod schemas** (`StoryForms`, `MantraForms`, `FormRules`), as
  predicates. They include:
  - String trimming as `String.prototype.trim` does it.
  - The comma-separated tag rule. It is proved not to care whether it is
    checked before or after trimming.
  - The MIME-type rules.
- **The submission logic** (`StoryReconcile`, `MantraReconcile`), as pure
  functions. The dialogs' `ComputeEdit` methods are proved to compute them.
- **The upload gateway client** (`Upload`). Its multipart body is proved to
  round-trip. It rejects more than ten photos early.
- **The story record guards** (`StoryService`).
- **The query hooks** (`Queries`, `StoryQueries`, `MantraQueries`):
  - key factories, and the partial key match the query cache applies;
  - infinite paging;
  - create-with-upload;
  - error toasts;
  - cache invalidation.
- **The session store** (`Auth`).
- **The generic dialog-state hook** (`DialogState`).
- **Tooltip truncation** (`ToolTip`).
- **S3 URL construction** (`S3Url`).

Where the code departs from what a reader might expect, this is stated as a
lemma rather than corrected. For example:

- The create schema admits ten gallery photos, but the upload then gets eleven
  and rejects them.
- Switching an audio story to video mode without choosing a video saves a
  story with neither.
- The mantra create toast hides client-side errors.

Network replies are parameters of the operations that consume them: the
gateway's `uploadReply`, and the record endpoint's `saveReply` or
`updateReply`. Browser storage is a pair of maps. A filter object
(`Queries.Filters`) maps property names to strings, so the pages' numeric
`limit: 10` is held as the text "10".

## Model

| member | source | states |
|---|---|---|
| Common.RemoveAt | src/components/StoryDialog.tsx:410-426 | `filter((_, i) => i !== index)`: one shorter for an index in range, unchanged otherwise, order of the rest kept |
| Common.RemoveAtMultiset | src/components/StoryDialog.tsx:423-426 | removing a kept photo by index removes exactly that one occurrence |
| Common.Without | src/services/auth.service.ts:41-43 | `filter(h => h !== handler)`: the handler is gone and nothing new appears |
| Common.WithoutAppend | src/services/auth.service.ts:41-43 | filtering distributes over concatenation, so the other handlers keep their order |
| Common.WithoutMultiset | src/services/auth.service.ts:41-43 | every registration of the handler goes; every other handler stays as often as before |
| Common.NatToString | src/components/StoryDialog.tsx:398 | `String(n)`: decimal digits whose value is n, with no leading zero |
| FormRules.TrimStart | src/components/StoryDialog.tsx:43-47 | `trim` from the left: a suffix of the input, with only white space removed and none left at its front |
| FormRules.TrimEnd | src/components/StoryDialog.tsx:43-47 | `trim` from the right: a prefix of the input, with only white space removed and none left at its end |
| FormRules.Trim | src/components/StoryDialog.tsx:43-47 | `trim()`: a run of the typed text with only white space before and after it, and none at either of its own ends |
| FormRules.TrimmedFromUnique | src/components/StoryDialog.tsx:43-47 | no other string is trimmed from the text in that sense, so the description fixes `trim()`'s result |
| FormRules.TrimEmptyIff | src/components/StoryDialog.tsx:68 | `tag.trim().length > 0` exactly when the segment has a non-white-space character |
| FormRules.Split | src/components/StoryDialog.tsx:68 | `val.split(",")` always has at least one segment and no segment holds the separator |
| FormRules.SplitJoin | src/components/StoryDialog.tsx:68 | splitting loses nothing: joining the segments with the separator gives the input back |
| FormRules.SplitSnoc | src/components/StoryDialog.tsx:68 | a final character other than the separator extends the last segment only |
| FormRules.TrimKeepsTagSegments | src/components/StoryDialog.tsx:62-70 | the tag refinement accepts the trimmed value exactly when it accepts the value as typed |
| FormRules.TrimmedTitleCanBeShort | src/components/StoryDialog.tsx:43-47 | `min(3)` is checked before `.trim()`, so "   a" passes and "a" is handed on |
| FormRules.AdjacentCommasRejected | src/components/StoryDialog.tsx:67-70 | a tag list with ",," has an empty segment and is rejected |
| FormRules.AudioRuleIsPrefixRule | src/components/StoryDialog.tsx:83-88 | the `=== "audio/mp3"` alternative adds nothing to `startsWith("audio/")` |
| FormRules.PhotoLimitErrorNamesCount | src/components/StoryDialog.tsx:394-400 | between its fixed lead and tail the photo-limit message holds exactly the digits of the kept-photo count |
| StoryForms.CreateStricterThanEdit | src/components/StoryDialog.tsx:41-184 | every form `createStorySchema` accepts, `editStorySchema` accepts; without a title photo only the edit schema can |
| StoryForms.EmptyFormRejected | src/components/StoryDialog.tsx:252-263 | the default form values fail both schemas |
| StoryForms.CreateAllowsTenGalleryPhotos | src/components/StoryDialog.tsx:81-110 | in audio mode the create schema accepts ten gallery photos next to the title photo |
| StoryForms.EmptyTagSegmentRejected | src/components/StoryDialog.tsx:62-70 | a form whose tags contain ",," fails both schemas |
| StoryForms.Parsed | src/components/StoryDialog.tsx:41-70 | each parsed text field is the typed one with white space, and only white space, taken off both ends; category, media type and files are kept |
| MantraForms.CreateMantraStricterThanEdit | src/components/CreateMantraDialog.tsx:37-106 | `createMantraSchema` implies `editMantraSchema`; without photos or audio only the edit schema can pass |
| MantraForms.EmptyMantraFormRejected | src/components/CreateMantraDialog.tsx:158-167 | the default mantra form fails both schemas |
| MantraForms.ParsedMantra | src/components/CreateMantraDialog.tsx:37-66 | each parsed text field is the typed one with white space, and only white space, taken off both ends; the files are kept |
| S3Url.ImageUrlSet | src/utils/s3Url.utils.ts:46-54 | one URL for each of the six sizes, each equal to `getImageUrl` at that size |
| S3Url.ImageUrlRoundTrip | src/utils/s3Url.utils.ts:13-19 | the key can be read back from its image URL at every size; the URL is "" exactly for the empty key |
| S3Url.MediaUrlRoundTrip | src/utils/s3Url.utils.ts:26-39 | audio and video URLs coincide and give their key back; "" exactly for the empty key |
| S3Url.ImageUrlUnderBase | src/utils/s3Url.utils.ts:3-19 | every non-empty image URL starts with the bucket URL and ends in ".webp" |
| S3Url.MediaUrlUnderBase | src/utils/s3Url.utils.ts:26-39 | every non-empty audio or video URL starts with the bucket URL |
| S3Url.DefaultSizeIs300 | src/utils/s3Url.utils.ts:13-18 | with the size left out, the URL ends in `_300.webp` |
| S3Url.SuffixNamesSize | src/utils/s3Url.utils.ts:13-19 | `_${size}.webp`: an underscore, the decimal digits of the size with no leading zero, then ".webp" |
| Upload.UploadMedia | src/services/upload.service.ts:15-48 | nothing is sent exactly when the photos exceed ten; otherwise the body is the photos in order, then the audio, then the video |
| Upload.PhotoFields | src/services/upload.service.ts:28-30 | one "photos" entry per file, file i at position i |
| Upload.BodyRoundTrip | src/services/upload.service.ts:20-39 | the multipart body decodes back to the request (an empty photo list leaves no entry) |
| Upload.FieldOrder | src/services/upload.service.ts:22-39 | in the body every photo precedes the audio, which precedes the video |
| Upload.TenPhotosAccepted | src/services/upload.service.ts:23-26 | ten photos go through, eleven are rejected |
| StoryService.CheckStory | src/services/story.service.ts:78-97 | passes exactly the payloads with at most one of audio and video, no gallery with a video, and a title photo and gallery with an audio; the failures are client errors with one of the three messages |
| StoryService.CreateStory | src/services/story.service.ts:78-101 | a POST to "/stories/" with the payload exactly when the guards pass |
| StoryService.UpdateStory | src/services/story.service.ts:103-124 | a PUT to "/stories/<id>" with the payload exactly when the guards pass |
| StoryService.FirstFailingCheck | src/services/story.service.ts:79-97 | the checks run in order: both media, then video with photos, then incomplete audio story |
| StoryService.AllFaultsReportBoth | src/services/story.service.ts:79-82 | a payload with every fault reports only "Cannot have both audio and video" |
| StoryService.CreateAndUpdateAgree | src/services/story.service.ts:103-120 | create and update accept the same payloads and fail with the same error |
| StoryService.NeitherMediaAccepted | src/services/story.service.ts:78-99 | a payload with neither audio nor video is sent unchanged, whatever its photos |
| StoryService.EmptyKeyIsAbsent | src/services/story.service.ts:80-87 | `audio: ""` is falsy, so it does not conflict with a video |
| Queries.Key | src/hooks/api/story.queries.ts:19-29 | every key starts with its root, and only `all` is the root alone |
| Queries.KeyInjective | src/hooks/api/story.queries.ts:19-29 | distinct factory entries, across roots too, never produce the same key |
| Queries.EveryKeyUnderRoot | src/hooks/api/story.queries.ts:19-29 | the root key matches every key under it |
| Queries.KeyMatchesReached | src/hooks/api/story.queries.ts:19-29 | under the partial match a key matches another of its root exactly when its entry reaches the other: the root every entry, `lists(f)` or `infinite(f)` every entry of its kind whose filters have all of f's properties with f's values, any other entry only itself |
| Queries.RootsApart | src/hooks/api/mantra.queries.ts:19-29 | story keys and mantra keys never match each other |
| Queries.SearchVariantReached | src/hooks/api/story.queries.ts:23-24 | the filters with a `search` added are reached from those without it, and not the other way round |
| Queries.PagesLoadedFrom | src/hooks/api/story.queries.ts:37-43 | following `getNextPageParam` from a page loads that page and each following one up to the last, in order |
| Queries.PagingVisitsEveryPage | src/hooks/api/story.queries.ts:37-43 | from `initialPageParam: 1` the pages 1..totalPages are loaded once each, in order |
| Queries.MessagesNeverEmpty | src/hooks/api/story.queries.ts:116-123 | with a non-empty fallback the toast is never empty |
| StoryQueries.StoriesKey | src/hooks/api/story.queries.ts:19-29 | every story key starts with "stories" |
| StoryQueries.CreateWithUpload | src/hooks/api/story.queries.ts:73-109 | the upload goes first; a failed upload ends the run with no story request; otherwise the payload built from the returned keys goes through `createStory` and the run settles with its outcome |
| StoryQueries.UploadTitleFirst | src/hooks/api/story.queries.ts:84-88 | the title photo is the first photo sent, followed by the gallery only when there is no video |
| StoryQueries.PositionalSplit | src/hooks/api/story.queries.ts:90-105 | with a gateway that answers, the first key becomes the title photo and the rest the gallery, one per file in order (none with a video) |
| StoryQueries.PayloadFromKeysOnly | src/hooks/api/story.queries.ts:90-105 | the payload depends on the text, on whether there is a video, and on the upload result only |
| StoryQueries.AudioStoryCreated | src/hooks/api/story.queries.ts:73-109 | an audio story with one to nine gallery photos is created from the keys returned |
| StoryQueries.VideoStoryCreated | src/hooks/api/story.queries.ts:73-109 | a video story is created with an empty gallery |
| StoryQueries.TenGalleryPhotosRejected | src/hooks/api/story.queries.ts:84-88 | ten gallery photos plus the title photo make eleven: rejected, no story request |
| StoryQueries.BothMediaRejectedAfterUpload | src/hooks/api/story.queries.ts:84-107 | with both an audio and a video both are uploaded, and only then is the story rejected |
| StoryQueries.ClientErrorsOnCreateAndUpdate | src/hooks/api/story.queries.ts:116-147 | a client-side error is shown as it is on create and replaced by the fallback on update |
| StoryQueries.ServerMessageWins | src/hooks/api/story.queries.ts:116-168 | a server message is the toast of every story mutation |
| StoryQueries.CreateSettled | src/hooks/api/story.queries.ts:111-123 | success invalidates and shows "Story created successfully"; failure only toasts the create message |
| StoryQueries.UpdateSettled | src/hooks/api/story.queries.ts:135-147 | success shows "Story updated successfully"; failure only toasts the update message |
| StoryQueries.DeleteSettled | src/hooks/api/story.queries.ts:158-168 | success shows "Story deleted successfully"; failure only toasts the delete message |
| StoryQueries.CreateReachesList | src/hooks/api/story.queries.ts:111-114 | a create refreshes exactly the cached infinite lists whose filters extend the hook's, and no other story query |
| StoryQueries.UpdateReachesListAndDetail | src/hooks/api/story.queries.ts:135-142 | an update refreshes exactly the cached lists whose filters extend the hook's and the story's detail |
| StoryQueries.DeleteRemovesDetail | src/hooks/api/story.queries.ts:158-163 | a delete refreshes exactly the lists whose filters extend the hook's and the detail, and removes exactly the detail |
| StoryQueries.SearchListRefreshed | src/hooks/api/story.queries.ts:111-163 | with no search typed, create, update and delete also refresh the list cached for any search term |
| StoryQueries.StoryMutationsSpareMantras | src/hooks/api/story.queries.ts:111-168 | no story mutation touches a mantra query |
| MantraQueries.MantrasKey | src/hooks/api/mantra.queries.ts:19-29 | every mantra key starts with "mantras" |
| MantraQueries.CreateWithUpload | src/hooks/api/mantra.queries.ts:70-91 | upload first; a failed upload ends the run with no mantra request; otherwise the mantra is created from the returned keys and the run settles with the create reply |
| MantraQueries.MantraCreated | src/hooks/api/mantra.queries.ts:70-91 | one to ten photos answered by the gateway give one key per photo in order, a truthy audio key and the text unchanged |
| MantraQueries.ElevenPhotosRejected | src/hooks/api/mantra.queries.ts:71-75 | eleven photos are rejected and no mantra request is made |
| MantraQueries.ClientErrorHidden | src/hooks/api/mantra.queries.ts:99-104 | the create toast ignores the error's own message: a client error shows the fallback, a server message still wins |
| MantraQueries.CreateSettled | src/hooks/api/mantra.queries.ts:93-105 | success shows "Mantra created successfully"; failure only toasts the create message |
| MantraQueries.CreateReachesList | src/hooks/api/mantra.queries.ts:93-96 | a create refreshes exactly the cached infinite lists whose filters extend the hook's, and no other mantra query |
| MantraQueries.UpdateSettled | src/hooks/api/mantra.queries.ts:117-129 | success shows "Mantra updated successfully"; failure only toasts |
| MantraQueries.DeleteSettled | src/hooks/api/mantra.queries.ts:140-150 | success shows "Mantra deleted successfully"; failure only toasts |
| MantraQueries.UpdateReachesListAndDetail | src/hooks/api/mantra.queries.ts:117-122 | an update refreshes exactly the cached lists whose filters extend the hook's and the mantra's detail |
| MantraQueries.DeleteRemovesDetail | src/hooks/api/mantra.queries.ts:140-143 | a delete refreshes exactly the lists whose filters extend the hook's and the detail, and removes exactly the detail |
| StoryReconcile.NoNewFilesNoUpload | src/components/StoryDialog.tsx:493-573 | with no new file nothing is uploaded and the payload carries the kept keys, changed only by the mode-switch rules |
| StoryReconcile.UploadPhotoOrder | src/components/StoryDialog.tsx:504-515 | the photos sent are the new title photo then the new gallery; with neither, `photos: null` |
| StoryReconcile.UploadOnlyNew | src/components/StoryDialog.tsx:514-518 | the upload never carries a file whose "new" flag is down |
| StoryReconcile.PhotoMerge | src/components/StoryDialog.tsx:520-536 | a new title photo takes the first key; the gallery keeps the kept keys first and appends the rest only when gallery files are new |
| StoryReconcile.AudioVideoOverrides | src/components/StoryDialog.tsx:538-547 | a returned audio clears the video; a returned video clears the audio and the gallery and wins over the audio |
| StoryReconcile.ModeSwitchRules | src/components/StoryDialog.tsx:550-559 | the mode switch keeps the title photo, and can only clear the video, or the audio together with the gallery |
| StoryReconcile.PositionalMerge | src/components/StoryDialog.tsx:504-536 | with a gateway that answers, the title photo's key is the title photo and the key of gallery file i follows the kept keys at position i |
| StoryReconcile.NeverBothAudioAndVideo | src/components/StoryDialog.tsx:538-573 | in a coherent state the update never carries both audio and video |
| StoryReconcile.IncoherentStateSendsBoth | src/components/StoryDialog.tsx:538-559 | without coherence a kept video beside an unfulfilled new-video flag goes out with the audio |
| StoryReconcile.SwitchToVideoWithoutVideo | src/components/StoryDialog.tsx:555-573 | switching an audio story to video without choosing one saves a story with neither media and no gallery |
| StoryReconcile.EditElevenPhotosRejected | src/components/StoryDialog.tsx:504-518 | a new title photo and ten gallery files are rejected by the upload and no update is sent |
| StoryReconcile.CreateFromValidAudioForm | src/components/StoryDialog.tsx:576-585 | a valid audio form with up to nine gallery photos is created |
| StoryReconcile.CreateSchemaAdmitsRejectedUpload | src/components/StoryDialog.tsx:81-110 | a form the create schema accepts with ten gallery photos can never be created |
| StoryDialog.SeededForm | src/components/StoryDialog.tsx:269-281 | the record's title, description and tags (or "" when missing); audio mode exactly when the record has an audio key; no files; category defaults to "mythology" |
| StoryDialog.SeededPending | src/components/StoryDialog.tsx:284-306 | the record's title-photo, gallery, audio and video keys (a missing or empty one as ""), no new-file flag, coherent |
| StoryDialog.Dialog.constructor | src/components/StoryDialog.tsx:231-263 | closed, default form, no error, preview, key or flag |
| StoryDialog.Dialog.ClearAllPreviews | src/components/StoryDialog.tsx:342-357 | previews, file names, kept keys and flags are all cleared, the form is not |
| StoryDialog.Dialog.HandleCancel | src/components/StoryDialog.tsx:594-609 | the form is reset, everything cleared and the dialog closed |
| StoryDialog.Dialog.Open | src/components/StoryDialog.tsx:323-340 | a create dialog opens reset and cleared; an edit dialog opens unchanged |
| StoryDialog.Dialog.ReceiveStory | src/components/StoryDialog.tsx:267-306 | an open edit dialog is seeded from the record; previews and flags cleared; the audio/video names set only when the record has them |
| StoryDialog.Dialog.HandleTitlePhotoChange | src/components/StoryDialog.tsx:360-376 | an image replaces the title photo and clears its kept key; another file only sets the field error; keeps `Valid` |
| StoryDialog.Dialog.HandleRemoveTitlePhoto | src/components/StoryDialog.tsx:378-382 | the chosen title photo and its flag go |
| StoryDialog.Dialog.HandleRemoveExistingTitlePhoto | src/components/StoryDialog.tsx:384-386 | the kept title photo key goes |
| StoryDialog.Dialog.HandlePhotoChange | src/components/StoryDialog.tsx:389-408 | files within ten with the kept ones replace the gallery selection; beyond ten only the error naming the kept count is set |
| StoryDialog.Dialog.HandleRemovePhoto | src/components/StoryDialog.tsx:410-421 | the file at the index and its preview go; the flag drops when none is left |
| StoryDialog.Dialog.HandleRemoveExistingPhoto | src/components/StoryDialog.tsx:423-426 | the kept key at the index goes |
| StoryDialog.Dialog.HandleAudioChange | src/components/StoryDialog.tsx:429-446 | an `audio/` file replaces the audio, names it and clears the kept key; another file only sets the error |
| StoryDialog.Dialog.HandleRemoveAudio | src/components/StoryDialog.tsx:448-453 | the chosen audio, its name and its flag go |
| StoryDialog.Dialog.HandleRemoveExistingAudio | src/components/StoryDialog.tsx:455-457 | the kept audio key goes |
| StoryDialog.Dialog.HandleVideoChange | src/components/StoryDialog.tsx:460-477 | a `video/` file replaces the video, names it and clears the kept key; another file only sets the error |
| StoryDialog.Dialog.HandleRemoveVideo | src/components/StoryDialog.tsx:479-484 | the chosen video, its name and its flag go |
| StoryDialog.Dialog.HandleRemoveExistingVideo | src/components/StoryDialog.tsx:486-488 | the kept video key goes |
| StoryDialog.Dialog.SelectAudioMode | src/components/StoryDialog.tsx:784-792 | audio mode; the chosen video and its preview go; flags and kept keys stay |
| StoryDialog.Dialog.SelectVideoMode | src/components/StoryDialog.tsx:804-814 | video mode; the chosen audio and gallery and their previews go; flags and kept keys stay |
| StoryDialog.Dialog.BuildUploadRequest | src/components/StoryDialog.tsx:504-518 | the loop-built upload request is the edit upload request of the current media state |
| StoryDialog.Dialog.MergeUploadResult | src/components/StoryDialog.tsx:495-547 | the step-by-step merge equals `Merge` of the media state and the result |
| StoryDialog.Dialog.ApplyModeSwitch | src/components/StoryDialog.tsx:550-559 | the two `if`s equal the mode-switch rules |
| StoryDialog.Dialog.ComputeEdit | src/components/StoryDialog.tsx:493-573 | the edit run is the edit submission of the current state; in a coherent state the update never carries both audio and video |
| StoryDialog.Dialog.Submit | src/components/StoryDialog.tsx:491-592 | a rejected form sends nothing; an edit dialog runs the edit submission on the parsed data and a create dialog the create mutation; a save that resolves resets and closes, a failed one changes nothing |
| StoryDialog.UntouchedEditKeepsMedia | src/components/StoryDialog.tsx:267-306 | an edit saved untouched after seeding uploads nothing and keeps the record's keys |
| StoryDialog.BothMediaRecordDropsVideo | src/components/StoryDialog.tsx:550-553 | a record with both audio and video opens in audio mode and an untouched save drops the video |
| StoryDialog.RemoveKeptPhotoScenario | src/components/StoryDialog.tsx:423-426 | removing the second of three kept photos sends the other two in order, with nothing uploaded |
| StoryDialog.ElevenPhotoEditScenario | src/components/StoryDialog.tsx:389-401 | with no kept photos a new title photo and ten files pass the dialog's check and are rejected by the upload |
| MantraReconcile.NoNewFilesKeepKeys | src/components/CreateMantraDialog.tsx:344-379 | with no new file nothing is uploaded and the update carries the kept keys |
| MantraReconcile.UploadOnlyNew | src/components/CreateMantraDialog.tsx:352-356 | the upload carries exactly the new photos, the new audio, never a video |
| MantraReconcile.WithinLimitNeverRejected | src/components/CreateMantraDialog.tsx:259-267 | new photos that fit beside the kept ones never trip the upload's limit |
| MantraReconcile.AnsweredEditMerges | src/components/CreateMantraDialog.tsx:358-366 | the final gallery is the kept keys followed by one key per new photo, at most ten when the dialog kept the total within ten |
| MantraReconcile.RemovedAudioSentEmpty | src/components/CreateMantraDialog.tsx:344-377 | removing the kept audio without a new one sends `audio: ""` |
| MantraReconcile.EmptyAudioKeyKeepsOld | src/components/CreateMantraDialog.tsx:364-366 | an empty returned audio key keeps the kept key |
| MantraDialog.SeededForm | src/components/CreateMantraDialog.tsx:171-177 | the record's text, no files |
| MantraDialog.SeededMedia | src/components/CreateMantraDialog.tsx:180-190 | the record's keys and no new-file flag |
| MantraDialog.Dialog.constructor | src/components/CreateMantraDialog.tsx:149-167 | closed, default form, nothing kept or chosen |
| MantraDialog.Dialog.HandleCancel | src/components/CreateMantraDialog.tsx:401-421 | the form, previews, kept keys and flags are reset and the dialog closed |
| MantraDialog.Dialog.Open | src/components/CreateMantraDialog.tsx:214-232 | a create dialog opens reset; an edit dialog opens unchanged |
| MantraDialog.Dialog.ReceiveMantra | src/components/CreateMantraDialog.tsx:169-190 | an open edit dialog is seeded from the record, with "Current audio file" named exactly when it has an audio |
| MantraDialog.Dialog.HandlePhotoChange | src/components/CreateMantraDialog.tsx:254-276 | files within ten with the kept ones replace the selection; beyond ten only the error naming the kept count is set |
| MantraDialog.Dialog.HandleRemovePhoto | src/components/CreateMantraDialog.tsx:279-291 | the file at the index and its preview go; the flag drops when none is left |
| MantraDialog.Dialog.HandleRemoveExistingPhoto | src/components/CreateMantraDialog.tsx:294-297 | the kept key at the index goes |
| MantraDialog.Dialog.HandleAudioChange | src/components/CreateMantraDialog.tsx:300-319 | an `audio/` file replaces the audio, names it and clears the kept key; another file only sets the error |
| MantraDialog.Dialog.HandleRemoveAudio | src/components/CreateMantraDialog.tsx:322-329 | the chosen audio, its name and its flag go |
| MantraDialog.Dialog.HandleRemoveExistingAudio | src/components/CreateMantraDialog.tsx:332-334 | the kept audio key goes |
| MantraDialog.Dialog.ComputeEdit | src/components/CreateMantraDialog.tsx:339-379 | the run is the edit submission of the current state; within the limit only a failed upload withholds the update |
| MantraDialog.Dialog.Submit | src/components/CreateMantraDialog.tsx:337-399 | a rejected form sends nothing; edit or create path on the parsed data; a resolved save resets and closes, a failed one changes nothing |
| MantraDialog.PhotoLimitScenario | src/components/CreateMantraDialog.tsx:259-274 | with three kept photos, eight chosen set the error naming three, seven are accepted |
| Auth.AuthService.constructor | src/services/auth.service.ts:18-21 | the two storages as given, no handlers |
| Auth.AuthService.GetAccessToken | src/services/auth.service.ts:23-25 | the access token is read from session storage under "authToken" |
| Auth.AuthService.SetAccessToken | src/services/auth.service.ts:26-28 | only that session entry changes |
| Auth.AuthService.GetRefreshToken | src/services/auth.service.ts:29-31 | the refresh token is read from local storage under "refreshToken" |
| Auth.AuthService.SetRefreshToken | src/services/auth.service.ts:32-34 | only that local entry changes |
| Auth.AuthService.Clear | src/services/auth.service.ts:35-38 | both tokens and nothing else are removed |
| Auth.AuthService.OnLogout | src/services/auth.service.ts:39-40 | registration appends the handler |
| Auth.AuthService.Unsubscribe | src/services/auth.service.ts:41-43 | every registration of the handler goes, the rest keep their order |
| Auth.AuthService.TriggerLogout | src/services/auth.service.ts:45-56 | tokens cleared, then every registered handler called once in order, whatever the logout request does |
| Auth.AuthService.LoginWithGoogle | src/services/auth.service.ts:59-85 | the reply is returned; on failure the tokens are cleared; on success nothing is stored |
| Auth.AuthService.RefreshToken | src/services/auth.service.ts:88-109 | no refresh token or no base URL throw before any request; a reply without a token logs out and throws; otherwise the token is stored and returned |
| Auth.SessionRoundTrip | src/services/auth.service.ts:23-56 | tokens read back as set, are gone after logout, and only the handler still registered is called |
| DialogState.Opened | src/hooks/useDialogState.ts:15-17 | `{ ...data, isOpen: true }`: the data's properties and `isOpen` true |
| DialogState.DialogStateHook.constructor | src/hooks/useDialogState.ts:12-13 | the state starts as the initial state |
| DialogState.DialogStateHook.Open | src/hooks/useDialogState.ts:15-17 | the whole state is replaced by the opened data |
| DialogState.DialogStateHook.Close | src/hooks/useDialogState.ts:19-21 | back to exactly the initial state |
| DialogState.InitialStatesClosed | src/hooks/useDialogState.ts:32-79 | every provided initial state is closed; the story dialog's has a `mantraId` and no `storyId` |
| DialogState.EditThenClose | src/hooks/useDialogState.ts:15-21 | close forgets the story id, and a second `open` keeps nothing of the first |
| ToolTip.SliceTo | src/components/ToolTip.tsx:36 | `slice(0, end)` is a prefix of the text no longer than it |
| ToolTip.DisplayTextPositive | src/components/ToolTip.tsx:35-36 | a positive limit below the length keeps that many characters plus "...", else the text |
| ToolTip.NoLimitNoTruncation | src/components/ToolTip.tsx:35-49 | no limit or 0 shows the text; the tooltip then depends only on CSS overflow |
| ToolTip.DisplayIsPrefixOrText | src/components/ToolTip.tsx:35-36 | the display is the text or a prefix of it followed by "...", at most three longer |
| ToolTip.FullTextAlwaysReachable | src/components/ToolTip.tsx:49-71 | exactly one of `title` and the tooltip is present, and it holds the full text |
| ToolTip.NoTooltipMeansWholeText | src/components/ToolTip.tsx:35-61 | without a tooltip the whole text is displayed |
| ToolTip.TruncatedCanLookWhole | src/components/ToolTip.tsx:35-36 | a truncated text can display identical to itself |
| ToolTip.NegativeLimit | src/components/ToolTip.tsx:35-36 | a negative limit is truthy and cuts that many characters from the end |

## Definitions

These functions model source code directly and carry no contract of their
own beyond their body. What they mean is stated by the members in the table
that use them.

- Common.KeyOrAbsent (src/components/StoryDialog.tsx:570-571): `key || undefined`.
- Common.TruthyOrAbsent (src/hooks/api/story.queries.ts:92-93): `value || undefined`.
- Common.DecimalValue (src/components/StoryDialog.tsx:398): the number a string of digits denotes; `NatToString` is stated against it.
- StoryDialog.OrElse (src/components/StoryDialog.tsx:272-275) and MantraDialog.OrEmpty (src/components/CreateMantraDialog.tsx:172-174): `value || fallback`.
- Auth.GetItem (src/services/auth.service.ts:23-31): `storage.getItem(key)`; `SessionRoundTrip` states what reading back gives.
- Queries.NextPageParam (src/hooks/api/story.queries.ts:39-42): `getNextPageParam`; `PagesLoadedFrom` states the pages it leads to.
- Queries.ServerMessageOr (src/hooks/api/story.queries.ts:146) and Queries.ServerOrOwnMessageOr (src/hooks/api/story.queries.ts:118-121): the toast fallbacks; `MessagesNeverEmpty`, `ServerMessageWins`, `ClientErrorsOnCreateAndUpdate` and `ClientErrorHidden` state what they show.
- Upload.UploadOutcome (src/services/upload.service.ts:22-47): the gateway's answer; `UploadMedia` and `TenPhotosAccepted` state it.
- StoryService.Settle (src/services/story.service.ts:99-100): a guard error or the server's reply; `CreateStory` and `UpdateStory` state the guards.
- S3Url.ImageUrl (src/utils/s3Url.utils.ts:13-19), S3Url.AudioUrl (src/utils/s3Url.utils.ts:26-29) and S3Url.VideoUrl (src/utils/s3Url.utils.ts:35-39): the URL builders; the round-trip and under-base lemmas state them.
- StoryForms.CreateStorySchemaOk (src/components/StoryDialog.tsx:41-125) and StoryForms.EditStorySchemaOk (src/components/StoryDialog.tsx:127-184): the two story schemas.
- MantraForms.CreateMantraSchemaOk (src/components/CreateMantraDialog.tsx:37-66) and MantraForms.EditMantraSchemaOk (src/components/CreateMantraDialog.tsx:69-106): the two mantra schemas.
- StoryReconcile.EditUploadRequest (src/components/StoryDialog.tsx:504-518), StoryReconcile.Merge (src/components/StoryDialog.tsx:520-547), StoryReconcile.ModeSwitch (src/components/StoryDialog.tsx:550-559), StoryReconcile.EditPayload (src/components/StoryDialog.tsx:561-573), StoryReconcile.EditSubmission (src/components/StoryDialog.tsx:493-573) and StoryReconcile.CreateParams (src/components/StoryDialog.tsx:576-585): the story dialog's submit, step by step.
- MantraReconcile.NeedsUpload (src/components/CreateMantraDialog.tsx:348), MantraReconcile.EditUploadRequest (src/components/CreateMantraDialog.tsx:350-356), MantraReconcile.MergedPhotos (src/components/CreateMantraDialog.tsx:358-361), MantraReconcile.MergedAudio (src/components/CreateMantraDialog.tsx:363-366), MantraReconcile.EditPayload (src/components/CreateMantraDialog.tsx:369-378), MantraReconcile.EditSubmission (src/components/CreateMantraDialog.tsx:339-379) and MantraReconcile.CreateParams (src/components/CreateMantraDialog.tsx:386-392): the mantra dialog's submit, step by step.
- StoryQueries.CreateUploadRequest (src/hooks/api/story.queries.ts:84-88) and StoryQueries.PayloadFromUpload (src/hooks/api/story.queries.ts:90-105): the two steps of the story create mutation.
- MantraQueries.CreateUploadRequest (src/hooks/api/mantra.queries.ts:71-75) and MantraQueries.PayloadFromUpload (src/hooks/api/mantra.queries.ts:77-87): the two steps of the mantra create mutation.
- ToolTip.DisplayText (src/components/ToolTip.tsx:35-36), ToolTip.ShouldShowTooltip (src/components/ToolTip.tsx:49), ToolTip.FallbackTitle (src/components/ToolTip.tsx:55) and ToolTip.TooltipContent (src/components/ToolTip.tsx:61-71): the tooltip's rendering decisions.
- DialogState.AlertDialogInitial (src/hooks/useDialogState.ts:32-40), DialogState.ReasonDialogInitial (src/hooks/useDialogState.ts:46-53), DialogState.MantraDialogInitial (src/hooks/useDialogState.ts:66-72) and DialogState.StoryDialogInitial (src/hooks/useDialogState.ts:73-79): the initial states the hooks pass.

## Left out

- Rendering, JSX, styling, icons, spinners and the `disabled={isPending}` gating. They are presentation only.
- Object URLs from `URL.createObjectURL`. A preview is modelled as the file it previews.
- `shouldValidate` re-validation after `setValue`, and the resolver's per-field messages. Only the errors the handlers set with `setError` are modelled. A schema is a yes/no predicate on the whole form.
- TanStack Query internals: caching, retries, `isPending` and `enabled`. A mutation is its request, its outcome and its `onSuccess`/`onError` effects. A query is its key.
- HTTP, axios and its interceptors. Replies are parameters.
- `console.error` logging.
- `fetchAllStories`, `fetchStoryById`, `deleteStory`, and the mantra fetch/delete service calls. They are single requests with no client-side logic. `deleteStory` and `deleteMantra` appear through their mutations' settle functions.
- The `onCancel` and `onOpenChange` callbacks into the page. They belong to the page.
- The page's own close of the story dialog. The dialog shown while the record loads (src/components/StoryDialog.tsx:613-615) hands `onOpenChange` straight to the page, so dismissing it skips `handleCancel`: the form is not reset and only the `!isOpen` effect's `clearAllPreviews` runs (src/components/StoryDialog.tsx:337-339). `StoryDialog.Dialog.ClearAllPreviews` models that path; the close itself belongs to the page.
- The mantra dialog's close effect. It resets the same state as `handleCancel` and is modelled by `MantraDialog.Dialog.HandleCancel`.
- StoryDialog.Dialog.constructor: it requires a story id whenever the dialog is in edit mode, and so does `MantraDialog.Dialog.constructor` for mantras. The pages always pass `payload.id` when opening for edit (src/pages/Story.tsx:120-125, src/pages/Mantra.tsx:120-125). The source's fallback, where an edit dialog without an id takes the create path with `data.titlePhoto!` undefined, is not modelled. Each page keeps one dialog and changes its `mode` prop between openings (src/pages/Story.tsx:229-236, src/pages/Mantra.tsx:229-236); the model fixes the mode per `Dialog` with a `const isEditMode`, which comes to the same because every close resets the dialog, apart from the loading-dialog close listed above.
- `useStoryByIdQuery` loading. `ReceiveStory` and `ReceiveMantra` are what happens when the record arrives.
- The fields of the record that are never read, such as status, counts and dates.
- A fractional `maxChars`, which `slice` truncates, is not modelled: the limit is an integer.
- UTF-16 lengths. zod's `min`/`max` and the tooltip's `length` and `slice` count UTF-16 code units, while the model's strings are sequences of Unicode scalar values. A text with a character outside the Basic Multilingual Plane measures shorter in the model: U+1F600 followed by "a" has length 3 in JavaScript and passes `min(3)`, while `FormRules.TitleOk` rejects it, and `slice` can cut such a character in half where the model cannot.
- Non-string filter values. The pages' `limit: 10` is a number; the model holds it as the string "10", which `partialDeepEqual` compares the same way, as equal or not.
- The overflow measurement (`scrollWidth > clientWidth`) comes from the layout engine and is an input of the tooltip model.
- Auth.AuthService.TriggerLogout: the fire-and-forget `POST /auth/logout` is not modelled, because its outcome never affects the state.
- Auth.AuthService.RefreshToken: the `VITE_API_URL` value is reduced to whether one is configured.
- The refresh request's URL and body are not modelled.
- `LogoutHandler`s are identities. What a handler does is outside the service.
- The context files: the pages, column definitions, `DateFormatter`, the layouts and `axiosInstance`. They are not part of this model.
