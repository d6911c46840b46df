# Silhouette, modelled in Dafny

Silhouette is a virtual try-on app. The web client shows a clickable body
model, lets the user annotate body parts, pick a style vibe ("street",
"formal", "sporty", "manual") and read a stylist tip. It also previews
outfits.

The Express backend has four parts:

- It stores captures (a snapshot plus a style analysis) and preferences as
  files.
- It keeps a MongoDB collection of clothing items.
- It forwards image and video generation requests to a generation provider.
- It assembles outfit recommendations from the newest capture, the saved
  preferences, the matching items and the provider's answers. It calls
  `generateText` and `editImage` on the media model for this, and
  backend/models/mediaModel.js does not define either of them (see
  "## Left out").

This project models the deterministic logic behind that glue. Each
external call is a parameter of the member that makes it:

- the provider SDK;
- `JSON.parse` and the base64 codec;
- the clock;
- `readdirSync` order;
- the URL parser;
- the database's id assignment.

| file | module | what it models |
|---|---|---|
| `common.dfy` | `Common` | `Option`/`Result`, the string operations the code relies on (`split('\n')[0]`, `join`, `trim`, ASCII lower-casing), JavaScript truthiness of `string \| null`, the copy-then-add-or-delete toggle of a `Set`, and the `current === id ? null : id` toggle |
| `media_model.dfy` | `MediaModel` | the request objects `generateVideoOperation` and `generateImage` build |
| `media_errors.dfy` | `MediaErrors` | `handleApiError`, written with the same step-by-step reassignments |
| `media_video.dfy` | `MediaVideo` | the 60-attempt poll loop and the ordered outcome checks of `generateVideo`/`generateVideoInfo` |
| `media_image.dfy` | `MediaImage` | image-part selection, field precedence, and text joining in `generateImage`/`generateImageInfo` |
| `file_store.dfy` | `Files` | a directory as a map from name to contents and mtime; "newest `.json`" selection |
| `capture_store.dfy` | `Captures` | `saveCapture` and `getLatestCapture` as a class over the directory |
| `preferences_store.dfy` | `Preferences` | `savePreferences`, `getLatestPreferences` and `saveStyleVibe` as a class, plus the text rendering loop |
| `item_validator.dfy` | `ItemValidator` | the Zod `createItemSchema` |
| `item_store.dfy` | `Items` | the item controller as a class over the collection, with the Mongoose schema's trimming |
| `recommendation.dfy` | `Recommendation` | `generateRecommendation`: loading, defaults, the vibe map, the item query, the prompt values, JSON extraction, and the image loop |
| `ui_page.dfy` | `UiPage` | the page's state and its two mappings |
| `ui_body_model.dfy` | `UiBodyModel` | the selection toggle, the label lookup, rotation and zoom |
| `ui_annotations.dfy` | `UiAnnotations` | the add-comment guard, the expanded-set toggle, and grouping by body part |
| `ui_outfits.dfy` | `UiOutfits` | the outfit tables, the like toggle, and the play toggle |
| `ui_style_recommendation.dfy` | `UiStyleRecommendation` | the tip tables, the typewriter loop, refresh, and the manual-mode character count |

Conventions used throughout:

- An HTTP reply is a datatype with an `HttpStatus()` function.
- An absent or empty JavaScript string is `""`, because both are falsy.
- `null`/`undefined` become `None` where the distinction matters.
- The UI's zoom factor is kept in integer tenths, so 1.0 is 10 and the range [0.8, 1.3] is [8, 13].

## Model

All source paths are relative to the repository root.

| member | source | states |
|---|---|---|
| Common.NatToStringValue | backend/controllers/recommendationController.js:178 | the rendered digits denote the number, and only 0 starts with a zero, so "Outfit i+1" carries exactly i+1 |
| Common.FirstLine | backend/controllers/mediaController.js:44 | the result has no line feed, is a prefix of the input, and is either the whole input or stops right before its first line feed |
| Common.Trim | backend/models/itemModel.js:6-10 | the result is a slice of the input with only white space before and after it, and it neither starts nor ends with white space |
| Common.TrimUnique | backend/models/itemModel.js:6-10 | any string that is the input with its leading and trailing white space removed, in the sense of `Trim`'s contract, equals `Trim` of the input, so that contract determines the result |
| Common.TrimEmptyIff | frontend/components/silhouette/annotations-panel.tsx:49 | `trim()` gives a non-empty (truthy) string exactly when the text has a non-white-space character |
| Common.Toggled | frontend/components/silhouette/annotations-panel.tsx:55-63 | the toggled id changes membership; every other element keeps its membership |
| Common.ToggledTwice | frontend/components/silhouette/outfit-previews.tsx:40-50 | toggling the same id twice restores the original set |
| Common.ToggledChoice | frontend/components/silhouette/body-model.tsx:352 | clicking the chosen entry clears the choice; clicking any other entry chooses it. The body model's part selection and the outfit play button both use this rule |
| Common.ToggledChoiceTwice | frontend/components/silhouette/body-model.tsx:352 | two clicks on the same entry, from no choice or from that entry, restore the start |
| Common.JoinSnoc | backend/controllers/mediaController.js:289 | joining a non-empty list with one more piece gives the earlier join, then the separator, then that piece. So a join is the pieces in order with the separator between neighbours |
| MediaModel.VideoRequestOptions | backend/models/mediaModel.js:15-23 | the options always carry the prompt and the model (default `veo-3.1-generate-preview`), carry `aspectRatio` exactly when it is truthy, and have no other key; the object built field by field equals the value `VideoOptions` the handlers' contracts refer to |
| MediaModel.ImageRequestFor | backend/models/mediaModel.js:58-73 | the model defaults to `gemini-2.5-flash-image`; contents is the one-element list of the prompt; the modalities are always `["Image","Text"]`; `imageConfig` is present iff aspect ratio or size is truthy, and it holds exactly the truthy ones; the request equals the value `ImageRequestOf` the handlers' contracts refer to |
| MediaErrors.FindRetryInfo | backend/controllers/mediaController.js:31 | the index found is the first detail whose `@type` contains "RetryInfo"; none is found only when no detail has one |
| MediaErrors.DropTrailingS | backend/controllers/mediaController.js:33 | exactly one trailing `s` is removed when there is one; otherwise the text is unchanged |
| MediaErrors.HandleApiError | backend/controllers/mediaController.js:4-57 | status or code 429 gives 429 "Quota exceeded" with the fixed suggestion. `retryAfter` is set iff the first RetryInfo entry has a delay string, and is then that delay without its trailing `s`, plus " seconds". The message is the first line of the parsed body's message, or of the default message. Any other error gives status, else code, else 500, with the message or "Unknown error occurred". The reply is the value `ErrorReplyFor` the image handlers' contracts refer to |
| MediaErrors.DefaultQuotaMessageIsOneLine | backend/controllers/mediaController.js:9 | the default quota message is already a single line |
| MediaErrors.RetryDelayRewrite | backend/controllers/mediaController.js:33 | the delays "30s" and "30" are both reported as "30 seconds" |
| MediaVideo.PollUntilDone | backend/controllers/mediaController.js:78-86 | at most 60 polls are made. None is made when the submitted operation is already done. The returned operation is the last poll's. Every earlier poll was not done. Polling stops only when done or at 60. The result is where `Polled` says polling stops, which the handlers' contracts refer to |
| MediaVideo.CheckOutcome | backend/controllers/mediaController.js:88-107 | the outcome checks run in order. Not done gives a timeout carrying the operation name. Otherwise an error gives a failure. Otherwise a missing response or an empty video list is reported, and otherwise the first video is returned. Each case is stated as an if-and-only-if |
| MediaVideo.RunVideoGeneration | backend/controllers/mediaController.js:62-107 | an empty prompt gives 400 before the key check or any provider call. A missing key gives 500 before any call. The request sent is the options object for the body. A failed submit makes no poll and gives the submit-failure reply. Otherwise the reply is the outcome check of the operation polling ends with, and a timeout happens only after 60 polls |
| MediaVideo.GenerateVideo | backend/controllers/mediaController.js:62-128 | an empty prompt gives 400 and a missing key 500. Otherwise, with the provider's answer to the options for the body, a failed submit gives the submit-failure reply with its message, and otherwise the reply is the outcome check of the operation polling ends with. A file is downloaded exactly when a video was generated; it is that first video, and the reply is then 200 |
| MediaVideo.GenerateVideoInfo | backend/controllers/mediaController.js:133-197 | the same replies as `generateVideo`, tied to the submitted and polled operations. Info is returned exactly when a video was generated. Its uri falls back to the file name, its expiry is "2 days", and its operation name and done flag are those of the operation polling ended with |
| MediaVideo.PollingScenarios | backend/controllers/mediaController.js:78-93 | an operation first reported done at poll n < 60 is answered after exactly n + 1 polls and does not time out |
| MediaVideo.NeverDoneTimesOut | backend/controllers/mediaController.js:78-93 | an operation never reported done is polled 60 times and times out (504) |
| MediaImage.FindImagePart | backend/controllers/mediaController.js:218-220 | the index is the first part carrying `inlineData` or `imageData`; there is none only when no part carries either |
| MediaImage.ImageData | backend/controllers/mediaController.js:230 | `inlineData.data` wins when truthy; otherwise a truthy `imageData.data` is taken. The result is absent exactly when both data fields are falsy |
| MediaImage.MimeType | backend/controllers/mediaController.js:231 | `inlineData.mimeType` wins when truthy; otherwise a truthy `imageData.mimeType` is taken. When both are falsy the result is `image/png`, and it is never empty |
| MediaImage.Texts | backend/controllers/mediaController.js:286-288 | the result lists only non-empty texts, and it is empty exactly when no part has text |
| MediaImage.TextsSnoc | backend/controllers/mediaController.js:286-288 | appending a part appends its text when it has one and nothing otherwise. So the texts are those of the parts with text, in part order |
| MediaImage.TextOf | backend/controllers/mediaController.js:286-289 | the result is null exactly when there are no parts or no part has text. Otherwise it is the non-empty join of the texts with " " |
| MediaImage.TextOfSnoc | backend/controllers/mediaController.js:286-289 | a part appended with text adds a space and that text, or is the whole text when no earlier part had text; a part without text changes nothing. So the text is every non-empty text in order, separated by single spaces |
| MediaImage.SelectImagePart | backend/controllers/mediaController.js:202-228 | an empty prompt gives 400 and a missing key gives 500, both before any call. The request sent is the one built from the body. A provider error gives `handleApiError`'s reply for that error. A response without `candidates` gives its reply for the TypeError thrown. A response without an image part gives "No image generated". Otherwise the first candidate's parts are selected |
| MediaImage.GenerateImage | backend/controllers/mediaController.js:202-252 | an empty prompt gives 400 and a missing key 500. Otherwise, with the provider's answer to the request for the body: an error gives `handleApiError`'s reply, missing `candidates` gives its reply for the TypeError, and no image part gives "No image generated". An image part without data gives "Image data not found". Otherwise the reply is that part's data and MIME type, both non-empty |
| MediaImage.GenerateImageInfo | backend/controllers/mediaController.js:257-305 | the same early replies as `generateImage`, from the provider's answer to the request for the body. Otherwise the reply carries the first image part's data and MIME type, the data URL `data:<mime>;base64,<data>` (`undefined` for absent data), and the joined text of the same parts |
| MediaImage.FirstImagePartWins | backend/controllers/mediaController.js:218-220 | parts after the first image part never change which part is selected |
| Files.LatestJson | backend/controllers/captureController.js:72-80 | the result is none iff no `.json` name exists. Otherwise it is a `.json` name whose mtime no other reaches, and the first such name in listing order (the sort is stable) |
| Files.NewestJsonIsSelected | backend/controllers/captureController.js:72-80 | a `.json` file strictly newer than every other is the one selected |
| Captures.Resolve | backend/controllers/captureController.js:89 | a resolved path is exactly the join of the captures directory and the entry name |
| Captures.StripDataUrlPrefix | backend/controllers/captureController.js:32 | with a `data:image/<word>;base64,` prefix the input is that prefix plus the result. Any other input is returned unchanged |
| Captures.StripExamples | backend/controllers/captureController.js:32 | a PNG data URL loses its prefix, and bare base64 is kept whole |
| Captures.LatestCaptureFile | backend/controllers/captureController.js:72-86 | the result is none iff the directory has no `.json` name; otherwise it is the contents of a `.json` file with the greatest mtime |
| Captures.SnapshotBytes | backend/controllers/captureController.js:89-90 | bytes are read exactly when the snapshot path names an existing file of the captures directory |
| Captures.CaptureStore.SaveCapture | backend/controllers/captureController.js:17-53 | a falsy snapshot or analysis gives 400 and writes nothing. Otherwise `capture_<ts>.png` holds the decoded, prefix-stripped payload and `capture_<ts>.json` holds the record. The record points at that PNG and at `/captures/capture_<ts>.png`, and the reply echoes it |
| Captures.CaptureStore.GetLatestCapture | backend/controllers/captureController.js:67-106 | no `.json` file gives 404, and unparsable JSON gives 500. Otherwise the newest record is returned. It carries a PNG data URL of the snapshot exactly when that file exists |
| Captures.ImageNameIsNotJson | backend/controllers/captureController.js:29-34 | the PNG name is not a `.json` name and differs from the record's name |
| Captures.DataNameIsJson | backend/controllers/captureController.js:29 | the record's name ends in `.json` |
| Captures.SaveThenLatest | backend/controllers/captureController.js:32-91 | after a save newer than every file, the newest record is the saved one with the same analysis, and its snapshot path leads to the decoded bytes |
| Preferences.EntriesConcat | backend/controllers/preferencesController.js:55-58 | rendering a concatenation renders each part, the second numbered on from the first |
| Preferences.EntriesSnoc | backend/controllers/preferencesController.js:55-58 | appending one preference appends its block, numbered after the others |
| Preferences.EntryPosition | backend/controllers/preferencesController.js:55-58 | the k-th preference's block, numbered k + 1, sits between the blocks before it and after it, in list order |
| Preferences.TextFrame | backend/controllers/preferencesController.js:54-59 | the text starts with "User Style Preferences:" and a blank line, and ends with the "Saved at:" line |
| Preferences.RenderPreferences | backend/controllers/preferencesController.js:54-59 | the `+=` loop produces exactly the header, the numbered blocks in list order, and the "Saved at:" line |
| Preferences.PreferencesStore.SavePreferences | backend/controllers/preferencesController.js:17-81 | a non-array gives 400 and writes nothing. Otherwise the timestamped JSON and `latest.json` receive the record, and the timestamped text and `latest.txt` receive the rendering. The reply echoes the record |
| Preferences.PreferencesStore.GetLatestPreferences | backend/controllers/preferencesController.js:86-110 | 404 iff `latest.json` is absent; 500 iff it does not parse; otherwise its record |
| Preferences.PreferencesStore.SaveStyleVibe | backend/controllers/preferencesController.js:115-175 | an empty vibe gives 400 and writes nothing; otherwise the four style-vibe files are written and the record is echoed |
| Preferences.NamesDistinct | backend/controllers/preferencesController.js:30-159 | the timestamped names never collide with each other or with any fixed "latest" name |
| Preferences.SavePreferencesMirrors | backend/controllers/preferencesController.js:36-65 | `latest.json` equals the timestamped JSON, and `latest.txt` equals the timestamped text |
| Preferences.SavePreferencesFrame | backend/controllers/preferencesController.js:42-65 | a preferences save adds exactly its four names and leaves every other file, the style-vibe files included, unchanged |
| Preferences.SaveStyleVibeMirrors | backend/controllers/preferencesController.js:134-159 | both style-vibe JSON files hold the same record. Both text files hold the same text, which starts "Selected Style Vibe: <vibe>" |
| Preferences.SaveStyleVibeFrame | backend/controllers/preferencesController.js:140-159 | a style-vibe save adds exactly its four names and leaves every other file, `latest.json` and `latest.txt` included, unchanged |
| Preferences.SaveThenReadPreferences | backend/controllers/preferencesController.js:43-96 | reading `latest.json` after a save gives back the saved preferences, in order |
| ItemValidator.CheckNonEmpty | backend/validators/itemValidator.js:5-7 | no issue iff the member is a string of length at least 1; the issue names the field, and is a type issue iff the member is not a string |
| ItemValidator.CheckUrl | backend/validators/itemValidator.js:8-9 | no issue iff the member is a string the URL parser accepts; the issue names the field |
| ItemValidator.Parse | backend/validators/itemValidator.js:4-10 | parsing succeeds iff all five checks pass, and then yields exactly the five fields. A failure carries at least one issue, each naming one of the five fields |
| ItemValidator.MissingFieldFails | backend/validators/itemValidator.js:4-10 | an input missing any one of the five members fails with a type issue |
| ItemValidator.WhitespaceColourPasses | backend/validators/itemValidator.js:5 | a colour of spaces passes the length check unchanged |
| ItemValidator.IssuePerFailingField | backend/validators/itemValidator.js:4-10 | a field has an issue exactly when its own check fails |
| Items.Find | backend/controllers/itemController.js:27 | the index found holds the id, and none is found only when no item has it |
| Items.Without | backend/controllers/itemController.js:37 | the result keeps exactly the items whose id differs |
| Items.WithoutKeepsDistinct | backend/controllers/itemController.js:37 | deletion keeps ids distinct |
| Items.WithoutRemovesOne | backend/controllers/itemController.js:37 | with distinct ids, deleting a present id removes exactly one item |
| Items.WithoutAbsent | backend/controllers/itemController.js:37-39 | deleting an absent id changes nothing |
| Items.InsertByCreated | backend/controllers/itemController.js:20 | inserting into a newest-first list keeps it newest-first and adds exactly that item |
| Items.SortByCreated | backend/controllers/itemController.js:20 | the result is newest-first and a permutation of the input |
| Items.ItemStore.CreateItem | backend/controllers/itemController.js:5-16 | invalid input gives 400 with the issues and leaves the store unchanged. A field that trims to nothing, or a rejected insert, gives 500 and leaves the store unchanged. Otherwise 201 returns the trimmed item, which is appended, and the ids stay distinct |
| Items.ItemStore.GetItems | backend/controllers/itemController.js:19-22 | every item is returned, newest first, as a permutation of the collection |
| Items.ItemStore.GetItemById | backend/controllers/itemController.js:25-33 | a malformed id gives 400, an absent id 404, and otherwise the item carrying the id |
| Items.ItemStore.DeleteItem | backend/controllers/itemController.js:36-44 | a malformed id gives 400 and an absent id gives 404, both leaving the store unchanged. Otherwise exactly that item is removed and `{ok:true}` is returned |
| Items.DeleteThenFind | backend/controllers/itemController.js:27-39 | after a delete, a lookup of the same id finds nothing (404) |
| Items.CreateThenFind | backend/controllers/itemController.js:8-28 | a created item is found again by its id, in either letter case |
| Items.BlankColourIsServerError | backend/models/itemModel.js:6 | a colour of spaces passes the request schema but fails the item schema, so the reply is 500, not 400 |
| Items.StoredFieldsTrimmed | backend/models/itemModel.js:6-12 | each of the five stored fields is non-empty and is the input field with its leading and trailing white space removed; the item is stamped with the insertion time and keeps its id |
| Recommendation.LoadCapture | backend/controllers/recommendationController.js:18-39 | the capture is absent iff there is no `.json` file or the newest one does not parse. Otherwise it holds the newest record's analysis and its snapshot bytes, if the file exists |
| Recommendation.LoadPreferences | backend/controllers/recommendationController.js:46-55 | the result is the `preferences` of `latest.json` when that holds a record, and `[]` otherwise |
| Recommendation.ColorOf | backend/controllers/recommendationController.js:59 | `colour`, else `color`, else "unknown"; never empty |
| Recommendation.StyleOf | backend/controllers/recommendationController.js:60 | the analysed style, else "formal" |
| Recommendation.ItemOf | backend/controllers/recommendationController.js:61 | the analysed item, else "tops" |
| Recommendation.TargetStyle | backend/controllers/recommendationController.js:80-86 | street→streetwear, formal→formal, sporty→active, manual→custom; any other vibe gives the analysed style |
| Recommendation.Matching | backend/controllers/recommendationController.js:64-69 | only items matching colour (case-insensitively), style or item are kept |
| Recommendation.MatchingConcat | backend/controllers/recommendationController.js:64-69 | the filter keeps the collection's order |
| Recommendation.MatchingComplete | backend/controllers/recommendationController.js:64-69 | every matching item is kept |
| Recommendation.Query | backend/controllers/recommendationController.js:64-70 | the query returns at most 10 items. All of them match, and they are the first matches in collection order. With fewer than 10, every match is included |
| Recommendation.PreferenceLines | backend/controllers/recommendationController.js:75-76 | one non-empty "bodyPart: comment" line per preference, in order |
| Recommendation.PreferenceSummary | backend/controllers/recommendationController.js:75-77 | the summary is empty exactly without preferences, and starts with the first preference's line |
| Recommendation.PreferenceSummarySnoc | backend/controllers/recommendationController.js:75-77 | a preference appended adds ", " and its "bodyPart: comment" line, or is the whole summary when it is the first. So the summary is every line in list order, separated by ", " |
| Recommendation.ItemLines | backend/controllers/recommendationController.js:89-90 | one non-empty "- item (color, style): link" line per item, in order |
| Recommendation.ItemDescriptions | backend/controllers/recommendationController.js:89-91 | the description is empty exactly when no item matched, and starts with the first item's line |
| Recommendation.ItemDescriptionsSnoc | backend/controllers/recommendationController.js:89-91 | an item appended adds a line feed and its line, or is the whole text when it is the first. So the descriptions are every line in list order, one per line |
| Recommendation.PromptFor | backend/controllers/recommendationController.js:93-124 | the prompt carries the analysis colour, style and item and the target style as given. The items section is "No matching items found" exactly when no item matched, and the preferences section is "No specific preferences" exactly without preferences; otherwise each is the rendered text (unless that text is itself the placeholder) |
| Recommendation.FirstIndexOf | backend/controllers/recommendationController.js:134 | the first position of the character, or none exactly when it does not occur |
| Recommendation.LastIndexOf | backend/controllers/recommendationController.js:134 | the last position of the character, or none exactly when it does not occur |
| Recommendation.JsonSpan | backend/controllers/recommendationController.js:134 | a span is found iff some `}` follows some `{`, and it runs from the first `{` to the last `}` |
| Recommendation.Suggestions | backend/controllers/recommendationController.js:132-141 | the list is `[]` without a span, on a parse failure, or without a `recommendations` member; otherwise it is that member |
| Recommendation.EditedPart | backend/controllers/recommendationController.js:169-171 | a part is found exactly when the editor answered with a first candidate whose parts include an image-carrying part, and it is the first such part |
| Recommendation.ImageFor | backend/controllers/recommendationController.js:152-184 | the editor is asked to edit the captured snapshot with the image prompt, as `image/png`, with model `gemini-3-pro-image-preview`, aspect ratio `3:4` and size `2K`. An image exists exactly when the editor produced an image part. Its data URL is `data:<mime>;base64,<data>` with the MIME type and data of that part (`undefined` for absent data). Its name defaults to "Outfit " and i+1 in decimal, its items to `[]`, and its style to the target style |
| Recommendation.GenerateImages | backend/controllers/recommendationController.js:144-189 | the loop collects the images of the first min(n, 2) recommendations, in order, skipping failures |
| Recommendation.CollectedCount | backend/controllers/recommendationController.js:148-189 | at most one image per attempted recommendation, and exactly one each when every attempt succeeds |
| Recommendation.CollectedFrom | backend/controllers/recommendationController.js:148-189 | every collected image is the image of one attempted recommendation |
| Recommendation.GenerateRecommendation | backend/controllers/recommendationController.js:13-207 | no capture gives 400, before any item query or model call. Otherwise the text model `gemini-2.0-flash-exp` is asked with a prompt holding the defaulted analysis, the first 10 matches, the preferences and the target style. A failed text call or a missing snapshot gives 500. Otherwise the reply holds the extracted recommendations, the images of the first two edited from the snapshot, the text, the match count and the timestamp. When the text call always throws, every request with a capture gives 500 |
| UiPage.SelectedItem | frontend/app/page.tsx:16-27 | torso gives tops, legs gives bottoms and feet gives shoes; every other part, and no selection, gives no category |
| UiPage.SelectedVibe | frontend/app/page.tsx:30-41 | streetwear iff street, active iff sporty, and "formal" for every other vibe |
| UiPage.SelectedItemOfParts | frontend/app/page.tsx:16-27 | head, arms and no selection give no category, and distinct parts give distinct categories |
| UiPage.InitialSelection | frontend/app/page.tsx:12-13 | the first render asks for streetwear and no item category |
| UiPage.VibeLabelMatchesTargetStyle | frontend/app/page.tsx:30-41 | the page's label equals the backend's target style for street, formal and sporty; for manual the page sends "formal" while the backend targets "custom" |
| UiBodyModel.PartIds | frontend/components/silhouette/body-model.tsx:19-55 | there are five parts with distinct ids: head, torso, arms, legs, feet |
| UiBodyModel.ClickShape | frontend/components/silhouette/body-model.tsx:189-317 | a shape click clears the selection exactly when its part is selected, and otherwise selects its part: head, torso, or arms, legs or feet for either shape of a pair |
| UiBodyModel.ClickPill | frontend/components/silhouette/body-model.tsx:352 | a pill click clears the selection exactly when its part is selected, and otherwise selects that pill's part |
| UiBodyModel.ShapesSelectParts | frontend/components/silhouette/body-model.tsx:189-317 | both arm shapes act like the arms pill, both leg shapes like legs, and both foot shapes like feet; every shape selects a real part |
| UiBodyModel.FindPart | frontend/components/silhouette/body-model.tsx:332 | a part is found exactly for the five ids, and it carries the id |
| UiBodyModel.Label | frontend/components/silhouette/body-model.tsx:332-338 | the hovered part wins when truthy; otherwise the selected part; otherwise no label |
| UiBodyModel.HoveredLabelWins | frontend/components/silhouette/body-model.tsx:332-338 | while a part is hovered its label is shown, whatever is selected |
| UiBodyModel.ZoomInOf | frontend/components/silhouette/body-model.tsx:66-68 | zoom-in never exceeds 1.3, adds 0.1 below it, and leaves 1.3 or more at exactly 1.3 |
| UiBodyModel.ZoomOutOf | frontend/components/silhouette/body-model.tsx:70-72 | zoom-out never goes below 0.8, subtracts 0.1 above it, and makes 0.8 or less exactly 0.8 |
| UiBodyModel.Step | frontend/components/silhouette/body-model.tsx:58-72 | rotate adds exactly 45 degrees and nothing else turns the model. Zoom-in and zoom-out change only the zoom, by their clamped steps. Entering a part makes it the hovered part and leaving clears it, with nothing else changed. An in-range zoom stays in range |
| UiBodyModel.RunInvariant | frontend/components/silhouette/body-model.tsx:58-72 | for any sequence of handler runs the zoom stays in [0.8, 1.3], and the rotation grows by 45 per rotate |
| UiBodyModel.ReachableViews | frontend/components/silhouette/body-model.tsx:58-72 | from rotation 0 and zoom 1, every reachable view is in range, with rotation 45 × rotates |
| UiBodyModel.ZoomSaturates | frontend/components/silhouette/body-model.tsx:66-72 | three zoom-ins reach 1.3 and a fourth stays there; three zoom-outs reach 0.8 |
| UiAnnotations.BlankCommentNeverAdds | frontend/components/silhouette/annotations-panel.tsx:48-53 | a comment of white space is never added |
| UiAnnotations.AnnotationsPanel.SetCommentText | frontend/components/silhouette/annotations-panel.tsx:99 | typing replaces the comment text and nothing else |
| UiAnnotations.AnnotationsPanel.HandleAddComment | frontend/components/silhouette/annotations-panel.tsx:48-53 | with a part selected and a comment that trims to non-empty, the untrimmed text is handed on and the input cleared; otherwise nothing is added and the input is unchanged |
| UiAnnotations.AnnotationsPanel.ToggleExpanded | frontend/components/silhouette/annotations-panel.tsx:55-63 | the expanded set flips membership of that id only |
| UiAnnotations.GroupOf | frontend/components/silhouette/annotations-panel.tsx:65-74 | a group holds only annotations of its part, and is empty exactly when the part does not occur |
| UiAnnotations.Appearing | frontend/components/silhouette/annotations-panel.tsx:65-74 | exactly the body parts that occur, each once; empty iff there are no annotations |
| UiAnnotations.FirstIndex | frontend/components/silhouette/annotations-panel.tsx:65-74 | the position of the first annotation on a part that occurs: it is on that part and no earlier one is |
| UiAnnotations.AppearingInFirstOccurrenceOrder | frontend/components/silhouette/annotations-panel.tsx:65-74 | the occurring parts are listed in the order of their first annotations, which is the order the accumulator's keys are created in |
| UiAnnotations.GroupIsOrderedSelection | frontend/components/silhouette/annotations-panel.tsx:70 | a group is its members taken at increasing list positions, so relative order is kept |
| UiAnnotations.GroupIsComplete | frontend/components/silhouette/annotations-panel.tsx:65-74 | every annotation of the part is in its group |
| UiAnnotations.GroupAnnotations | frontend/components/silhouette/annotations-panel.tsx:65-74 | the `reduce` yields one group per occurring part, and the keys are listed in order of the parts' first annotations. Each group is that part's annotations in list order. No group, and so the empty state, happens iff there are no annotations |
| UiAnnotations.OccursOnce | frontend/components/silhouette/annotations-panel.tsx:65-74 | a key of a duplicate-free key list occurs in it once |
| UiAnnotations.SizesCover | frontend/components/silhouette/annotations-panel.tsx:149-190 | with distinct keys covering every part, the group sizes add up to the list length |
| UiAnnotations.GroupSizesSum | frontend/components/silhouette/annotations-panel.tsx:149-190 | the per-group counts add up to the "Total notes" figure |
| UiAnnotations.EachInItsGroup | frontend/components/silhouette/annotations-panel.tsx:65-74 | each annotation is in its own part's group and in no other |
| UiOutfits.OutfitsFor | frontend/components/silhouette/outfit-previews.tsx:18-38 | formal and sporty get their own tables, and every other vibe gets the street table. Every table has two outfits, with ids 1 and 2 |
| UiOutfits.ManualShowsStreet | frontend/components/silhouette/outfit-previews.tsx:38 | "manual" shows the street outfits |
| UiOutfits.AtMostOnePlaying | frontend/components/silhouette/outfit-previews.tsx:34 | at most one shown outfit is playing |
| UiOutfits.PlayReplaces | frontend/components/silhouette/outfit-previews.tsx:110 | clicking play on a non-playing outfit makes it the only one playing |
| UiOutfits.OutfitPreviews.ToggleLike | frontend/components/silhouette/outfit-previews.tsx:40-50 | the liked set flips membership of that id only; other state is unchanged |
| UiOutfits.OutfitPreviews.TogglePlay | frontend/components/silhouette/outfit-previews.tsx:110 | the playing id becomes the play toggle of the old one; other state is unchanged |
| UiStyleRecommendation.Recommendation | frontend/components/silhouette/style-recommendation.tsx:53-56 | an unknown vibe uses the street table. A null or unknown part gets the table's default, and a known part gets its own tip. The tip is never empty |
| UiStyleRecommendation.UnknownVibeIsStreet | frontend/components/silhouette/style-recommendation.tsx:54 | a vibe without a table, "manual" included, gets exactly the street tips |
| UiStyleRecommendation.PartTipsDiffer | frontend/components/silhouette/style-recommendation.tsx:19-44 | in each table every part's tip differs from the default |
| UiStyleRecommendation.Typewriter | frontend/components/silhouette/style-recommendation.tsx:64-75 | the loop shows len + 1 frames, each a prefix of the text of length equal to its tick, the last the whole text. It stops on the next tick |
| UiStyleRecommendation.CursorPulsesWhenComplete | frontend/components/silhouette/style-recommendation.tsx:167 | for a shown prefix, the cursor pulses exactly when the whole tip is shown |
| UiStyleRecommendation.CharCount | frontend/components/silhouette/style-recommendation.tsx:132 | the count is at least the number of characters, and equal exactly when every character is in the Basic Multilingual Plane |
| UiStyleRecommendation.CharCountOfBmp | frontend/components/silhouette/style-recommendation.tsx:132 | typing one Basic Multilingual Plane character raises the count by one |
| UiStyleRecommendation.StylistCard.SelectionChanged | frontend/components/silhouette/style-recommendation.tsx:59-76 | a new selection sets the derived tip and types it out from "", ending with the whole tip shown; every frame is a prefix |
| UiStyleRecommendation.StylistCard.Refresh | frontend/components/silhouette/style-recommendation.tsx:78-80 | the click starts the spinner and clears the shown text, keeping the tip |
| UiStyleRecommendation.StylistCard.RefreshElapsed | frontend/components/silhouette/style-recommendation.tsx:82-97 | the timeout stops the spinner and re-derives the tip, which for an unchanged selection is the same tip, then types it out in full |
| UiStyleRecommendation.StylistCard.SetManualStyle | frontend/components/silhouette/style-recommendation.tsx:107-132 | the manual text is stored and its length, in UTF-16 units, is shown |

## Left out

- Provider SDK calls are parameters: video submit, polling, download and image generation. Text generation and image editing are parameters too, with a difference: backend/models/mediaModel.js:76-81 exports neither `generateText` nor `editImage`, so as written `mediaModel.generateText(...)` (recommendationController.js:127) throws a TypeError and the outer catch answers 500 for every request whose capture loads, and `editImage` would likewise make every image be skipped. The model takes both as oracles for the behaviour the controller evidently intends; the code as written is the instance where `generateText` always fails, for which `GenerateRecommendation`'s contract gives 500. The same holds for `JSON.parse`, the base64 codec, `Date.now()`/`toISOString()`, file mtimes and the order `readdirSync` lists names in. `createdAt` and the "Saved at" time are two separate clock reads and may differ.
- The ten-second sleep between video polls, and the UI's `setInterval`/`setTimeout` timers, are not modelled. The poll and the typewriter are loops over their iterations. The typewriter runs to completion, so interleavings with user events are not modelled: a selection change between ticks clears the running interval through the effect cleanup, while a refresh click clears nothing, and the refresh's own interval is never cleared by a later selection change, so two typewriters can interleave.
- Exceptions thrown by a poll or by the video download are not modelled. A submission failure is modelled.
- The recommendation prompt's fixed template text is not rendered. Only the values filled into it are modelled.
- MongoDB behaviour is modelled only in part:
  - Colour matching is a case-insensitive substring test, although the code passes the colour to `$regex` unescaped, so regular-expression metacharacters are not modelled.
  - Case folding is ASCII only.
  - `updatedAt` and other Mongoose timestamps beyond `createdAt` are not modelled.
  - Any other database failure is the `rejected` flag of `CreateItem`.
  - The ObjectId cast of 12-character strings is not modelled; only the 24-hex-digit form is accepted.
- Whether a string is a URL is an oracle: the WHATWG URL parser is not part of this model.
- The on-disk JSON text is abstracted: a file holds the record written, another JSON object, or unparseable text. A file holding a JSON value that is not an object is not modelled: with top-level `null`, for instance, `captureData.snapshotPath` throws (backend/controllers/captureController.js:86-89) and the code answers 500. JavaScript objects with prototype keys (a vibe named `constructor`, say) are not modelled.
- The snapshot path is resolved only inside the captures directory, so paths elsewhere are treated as missing. `Captures.FileBytes` reads only PNG entries as bytes (other contents read as empty).
- A non-array `recommendations` member, preference entries without `bodyPart`/`comment`, and a non-string `styleVibe` are not modelled.
- Recommendation.GenerateRecommendation: a `null` entry among the first two `recommendations` is not modelled. Reading its `description` throws outside the inner `try`, so the code answers 500. The model's entries are always objects, so it answers with the recommendations instead.
- Recommendation.LoadPreferences: a `latest.json` whose `preferences` member is truthy but not an array is read as other JSON and gives `[]`. The code keeps that value, the `.map` that builds the summary throws, and the request is answered 500. The model does not represent such a member.
- An image part whose data member is present but empty shows as `undefined` in the model's data URL, where the code prints an empty string. The model does not tell an empty data string from an absent one.
- GroupAnnotations: `Object.entries` lists integer-like keys first, in ascending order, before the others in creation order. The model lists every key in creation order, which agrees for the five body-part ids the UI produces.
- Floating-point zoom is kept as integer tenths.
- Annotation positions (floating-point coordinates), the copy-to-clipboard handler, the outfit hover id (`hoveredId`) and the mouse-enter/leave handlers that set it, which only affect styling, are not modelled.
- Rendering-only components are not part of this model: the camera preview, header, layout and style-vibe selector.
- The duplicated item routes in the server entry point, the route wiring, and the test scripts are not part of this model.
- The style-analysis controller's Overshoot session is not part of this model.
