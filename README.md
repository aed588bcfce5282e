# Context Image Generation, modelled in Dafny

The project models the logic of a chat-front-end extension (`index.js`) that
turns the current conversation into an image-generation request for Gemini
image models. It posts the request through the host's chat-completions
backend and keeps the images it gets back.

The model covers these parts of the extension:

* **Context collection.** `getRecentMessages` scans the chat backwards for
  the last `depth` messages that have text and are not system messages.
  `getCharacterDescriptions` reads the persona, the character card and the
  scenario.
* **Request assembly.** `buildMessages` produces the content parts in a
  fixed order:
  1. the system instruction;
  2. the description block;
  3. the story context, or the prompt;
  4. the previous image;
  5. the character avatar, then the user avatar.
* **Request body and reply.** `generateImageFromPrompt` adds defaults for
  the source and the aspect ratio. It adds a resolution only when a size is
  set, and a reasoning effort and web search only for the flash2 family
  (`gemini-3.1`). The reply is classified in this order: a reply that is
  not ok is an API error; otherwise the first part with inline data gives
  the image, whose MIME type defaults to `image/png`; otherwise text is
  reported as text instead of an image; otherwise no image was returned.
* **Gallery.** `addToGallery` keeps the newest image first, caps the list
  at 50 entries and cuts each prompt to 200 characters.
  `deleteGalleryImage` mirrors JavaScript `splice` and `clearGallery` needs
  the user's confirmation.
* **Settings.**
  * The `loadSettings` defaults merge, as a class over the stored map with
    a loop.
  * The provider/model-family mapping of `updateModelDropdown`.
  * The size validation of `toggleImageSizeVisibility` and
    `updateSizeDropdown`.
  * The `message_depth` clamp to [1, 10].
* **Avatars.** The getters split a fetched data URL into its MIME type and
  its payload.
* **Media bookkeeping.** After a per-message generation, the chat message's
  `extra` object gets a media attachment that becomes the one shown.

The host's state is an explicit parameter: the chat, the names, the
character card and the persona text. So are the results of I/O: the avatar
fetches, the HTTP reply, the saved file path and `Date.now()`.
`buildMessages` and `generateImageFromPrompt` read a typed `Settings`
record, which is the state after `loadSettings` ran.

The modules are:

| module | file |
|---|---|
| `Wrappers` | `wrappers.dfy` |
| `Strings` | `strings.dfy` |
| `Chat` | `context.dfy` |
| `Avatars` | `avatars.dfy` |
| `Models` | `models.dfy` |
| `Instructions` and `Settings` | `settings.dfy` |
| `Gallery` | `gallery.dfy` |
| `Assembly` | `request.dfy` |
| `Generation` | `generation.dfy` |
| `Media` | `media.dfy` |

## Model

| member | source | states |
|---|---|---|
| Strings.OrDefault | index.js:222-223 | JavaScript's `or` default on a possibly missing string: the value when it is truthy, otherwise the fallback |
| Strings.Truncate | index.js:418 | `substring(0, n)`: at most `n` characters, a prefix of the input, and the whole input when it is short enough |
| Strings.ParseInt | index.js:741 | `parseInt(v, 10)` is `None` (NaN) exactly when no decimal digit follows the leading white space and an optional sign |
| Strings.ParseIntOfNatToString | index.js:741-744 | parsing the decimal text of a natural number gives the number back |
| Strings.ParseIntOfNumeral | index.js:741 | leading white space, then an optional `+` or `-`, then a numeral, then anything not starting with a digit, parses to the numeral's value with that sign (`" -12px"` gives -12) |
| Strings.Trim | index.js:271 | `trim()`: white space removed at both ends; its properties are stated by `Strings.TrimIsTrimmed` and `Strings.TrimShape` |
| Strings.TrimIsTrimmed | index.js:271 | `trim()` leaves no white space at either end |
| Strings.TrimShape | index.js:271 | the trimmed text is a contiguous piece of the input and only white space is cut from either end |
| Strings.TrimKeepsHead | index.js:288 | trimming a text that starts with a non-white header, followed by non-white content, keeps the header as a prefix |
| Strings.ContainsIff | index.js:77-80 | `includes` holds exactly when the substring occurs at some position |
| Chat.UserName | index.js:223 | the user name is `name1`, or "User"; never empty |
| Chat.CharName | index.js:222 | the character name is `name2`, or "Character"; never empty |
| Chat.EligibleIndices | index.js:219-221 | the indices below `n` of the messages with text that are not system messages, strictly ascending |
| Chat.EligibleIndicesComplete | index.js:219-221 | every eligible index below `n` is listed |
| Chat.WindowIsRecentSelection | index.js:216-230 | the selected indices are ascending, eligible, at or before the start, at most `depth` of them, and no eligible message is skipped unless the selection is full and the message is older than all of it |
| Chat.Recent | index.js:211-233 | at most `depth` entries, each with non-empty text and named after its side: the user name for a user message, otherwise the character name |
| Chat.RecentSelection | index.js:211-233 | `getRecentMessages` returns the snapshots of such a selection, in chat order |
| Chat.RecentLength | index.js:219 | the result holds `depth` entries, or all eligible ones when there are fewer |
| Chat.EligibleIndicesEmptyIff | index.js:221 | there are no eligible indices below `n` iff no message below `n` is eligible |
| Chat.RecentEmptyIff | index.js:214-233 | the result is empty iff the chat is empty, `depth <= 0`, or no eligible message lies at or before the start |
| Chat.Reversed | index.js:232 | `reverse()` keeps the length, and element `k` of the result is element `n-1-k` of the input |
| Chat.ScanTake | index.js:218-228 | pushing an eligible message keeps the scan invariant, one index lower |
| Chat.ScanSkip | index.js:219-221 | skipping an ineligible message keeps the scan invariant |
| Chat.ScanDone | index.js:219-232 | when the scan stops, the messages it took, reversed, are the snapshots of the window |
| Chat.RecentMessages | index.js:211-233 | the loop returns exactly `Recent(h, depth, from)` |
| Chat.CharacterDescriptions | index.js:235-247 | every field is the host's text when it is truthy, otherwise its default; the user name falls back from `name1` to the context's `name1`, then to "User" |
| Avatars.SecondField | index.js:172-174 | `split(',')[1]`: `None` iff there is no comma; otherwise the text up to the next comma |
| Avatars.MimeMatch | index.js:173 | the capture of `/data:([^;]+)/` is non-empty and has no `;` |
| Avatars.MimeTypeOf | index.js:173 | the MIME type is never empty: the capture of the regular expression on the text before the first comma when there is one, otherwise `image/png` |
| Avatars.PayloadOf | index.js:174 | without a comma the payload is the whole data URL; a payload holding a comma is the whole data URL |
| Avatars.AvatarFromDataUrl | index.js:172-180 | the avatar carries the split MIME type and payload, its role and its name |
| Avatars.UserAvatar | index.js:162-182 | present iff the host gives an avatar path and the fetch succeeded; the role is user and the name is the user name |
| Avatars.CharacterAvatar | index.js:184-209 | present iff the current character has an avatar file and the fetch succeeded; the role is character and the name is the character name |
| Avatars.MimeMatchNeedsPrefix | index.js:173 | a MIME match is only found where `data:` occurs |
| Avatars.MimeTypeFallback | index.js:173 | without `data:` before the first comma, the MIME type is `image/png` |
| Avatars.DataUrlRoundTrip | index.js:172-175 | splitting `data:<mime>;base64,<data>` gives back `<mime>` and `<data>` |
| Models.ProviderModels | index.js:33-44 | a model table exists exactly for makersuite and openrouter |
| Models.FamilyOf | index.js:76-86 | the family read from a model id: pro when it holds `pro` or `3-pro`, else flash2 when it holds `3.1` or `3-1`, else flash; `Models.FamilyOfListedIds` states that it reads back every listed id |
| Models.ModelForProvider | index.js:63-87 | `None` iff the provider (empty meaning makersuite) has no model table; otherwise that table's model of the current model's family |
| Models.FamilyOfListedIds | index.js:33-44 | each listed model id is recognised as the family it is listed under |
| Models.ProviderSwitchKeepsFamily | index.js:74-86 | switching provider maps each provider's model of a family to the other provider's model of the same family |
| Models.SizeForDropdown | index.js:133-160 | the size kept is one the dropdown offers: the current one when offered, otherwise "" |
| Models.SizeForModel | index.js:120-131 | for a pro or flash2 model the size is one its dropdown offers; any other model keeps its size |
| Models.SizeForModelIdempotent | index.js:120-160 | validating the size twice gives what validating once gave |
| Models.HalfKOnlyForFlash2 | index.js:140-150 | "512" is reset to "" for a pro model that is not flash2 |
| Settings.Merged | index.js:97-101 | the defaults loop as a fold over the declared defaults: every key present before keeps its value; `Settings.MergedValues` states the value of every other key |
| Settings.FirstDefault | index.js:46-59 | `None` iff no default declares the key; otherwise a declared value |
| Settings.FirstDefaultSnoc | index.js:97-101 | appending an entry changes the first declaration only for a key not declared before |
| Settings.MergedValues | index.js:97-101 | a key already present keeps its value; a missing key gets its default's value, or stays missing when no default declares it |
| Settings.LoadedHasEveryDefaultKey | index.js:97-101 | after loading, every default key has a value |
| Settings.MergedComplete | index.js:97-101 | loading an object that already has every default key changes nothing |
| Settings.LoadIdempotent | index.js:94-101 | loading twice gives what loading once gave |
| Settings.SettingsStore.constructor | index.js:95 | the store starts with the stored object, or with `{}` when there is none |
| Settings.SettingsStore.LoadDefaults | index.js:97-101 | the loop leaves exactly the merge of the old object with the defaults |
| Settings.ClampDepth | index.js:740-747 | the stored depth is always in [1, 10]: the parsed value when in range, 1 for NaN or below 1, 10 above 10 |
| Settings.ClampDepthIdempotent | index.js:740-747 | the value written back into the field clamps to itself |
| Settings.OnProviderChange | index.js:692-697 | stores the provider; `updateModelDropdown` throws iff the provider has no model table, and then nothing else changes; otherwise it stores that provider's model of the same family and revalidates the size, and nothing else changes |
| Settings.OnModelChange | index.js:699-703 | stores the model and revalidates the size; nothing else changes |
| Settings.OnDepthChange | index.js:740-747 | stores `ClampDepth` of the input, a depth in [1, 10]; nothing else changes |
| Gallery.Take | index.js:423-425 | `slice(0, n)`: the smaller of the length and `n` elements, each equal to the input's at the same position |
| Gallery.NewEntry | index.js:416-421 | the recorded prompt is a prefix of the prompt of exactly min(200, length) characters, and the whole prompt when short enough |
| Gallery.Inserted | index.js:416-425 | adding gives a non-empty gallery of at most 50 entries whose first entry is the new one |
| Gallery.InsertedShape | index.js:409-427 | adding puts the entry first and shifts the rest back; only when the gallery is full is the oldest entry dropped |
| Gallery.TakeCons | index.js:416-425 | capping after each addition equals capping once |
| Gallery.InsertedAllNewestFirst | index.js:409-427 | after a run of additions the gallery is the newest 50 entries, newest first |
| Gallery.InsertedAllBounded | index.js:423-425 | the gallery never holds more than 50 entries |
| Gallery.SpliceStart | index.js:671 | the start index `splice` computes is within the list |
| Gallery.Spliced | index.js:671 | `splice(index, 1)` removes at most one entry |
| Gallery.SplicedAt | index.js:669-674 | deleting a valid index removes exactly that entry and keeps the order of the rest |
| Gallery.SplicedFromEnd | index.js:671 | a negative index `-k` deletes the `k`-th entry from the end |
| Gallery.SplicedPastEnd | index.js:671 | an index at or past the end deletes nothing |
| Gallery.GalleryStore.constructor | index.js:411-413 | the store starts with the stored list |
| Gallery.GalleryStore.Add | index.js:409-429 | the new list is the old one with the new entry in front, capped at 50; its first prompt is the truncated prompt |
| Gallery.GalleryStore.Delete | index.js:669-674 | the new list is the old one spliced at the index |
| Gallery.GalleryStore.Clear | index.js:629-638 | the list is emptied iff the user confirmed |
| Assembly.PushDescriptions | index.js:258-273 | appends the trimmed description block, or nothing |
| Assembly.StoryContext | index.js:281-286 | the header, then one tagged line per message, oldest first |
| Assembly.PrimaryPart | index.js:275-298 | the prompt text is `PrimaryText` |
| Assembly.PushPreviousImage | index.js:300-308 | appends the previous image and its caption, or nothing |
| Assembly.PushAvatars | index.js:310-331 | appends the character avatar, then the user avatar, each after its caption, only when avatars are on |
| Assembly.BuildMessages | index.js:249-335 | one user message whose content is the system part, then the description part, then the prompt part, then the previous image, then the avatars |
| Assembly.DescriptionPartsShape | index.js:258-273 | the description group is at most one text part, present iff descriptions are on and some field is non-empty |
| Assembly.LayoutImages | index.js:300-331 | the image URLs of the request are the previous image, then the character avatar, then the user avatar, each only when enabled and present |
| Assembly.CaptionedPairs | index.js:303-308 | reading the captioned images back from a run of caption/image pairs gives the pairs' (caption, URL) list |
| Assembly.LayoutCaptions | index.js:300-331 | after the prompt part the request holds exactly the reference pairs, each caption right before its own image: the previous-image caption with the newest gallery image as `image/png` iff previous images are on and the gallery is not empty; then, iff avatars are on, the `{{char}}` caption with the character avatar and the `{{user}}` caption with the user avatar, each iff that avatar was fetched |
| Assembly.LayoutPositions | index.js:254-298 | the system instruction is first when set, the description part follows, and the prompt part comes right after them |
| Assembly.DescriptionsOffIgnored | index.js:258 | with descriptions off, the description group is empty whatever the host holds |
| Assembly.StoryTrimStart | index.js:281-289 | the story context has no leading white space to trim |
| Assembly.StoryLineTrimEnd | index.js:285-289 | trimming a story line touches only the message text's trailing white space |
| Assembly.StoryContextTrimmed | index.js:281-289 | the trimmed story context is the header, then every line but the last unchanged, then the last line without the trailing white space of its text |
| Assembly.StoryKeepsHeader | index.js:281-289 | the trimmed story context begins with its header |
| Assembly.PrimaryText | index.js:277-298 | the text of the prompt part; its cases are stated by `Assembly.PrimaryTextCases` |
| Assembly.Layout | index.js:249-335 | the groups in the order the source pushes them: system, descriptions, prompt, previous image, avatars; `Assembly.LayoutPositions` and `Assembly.LayoutImages` state where each lands |
| Assembly.ContentParts | index.js:249-335 | the layout of the groups `buildMessages` computes from the settings and the host; `Assembly.BuildMessages` is proved to return it |
| Assembly.PrimaryTextCases | index.js:277-298 | the bare prompt without sender or message id; the story context when there are recent messages; otherwise the prompt, tagged with its sender when there is one |
| Generation.Body | index.js:337-366 | an empty provider is sent as makersuite and an empty aspect ratio as 1:1; constants as sent; a resolution iff a size is set; a reasoning effort iff flash2 and a level other than auto; web search iff flash2 and enabled |
| Generation.Flash2OptionsOnly | index.js:358-366 | no reasoning effort and no web search are sent to a model outside the flash2 family |
| Generation.BodyAfterProviderChange | index.js:344 | after the provider handler accepted a provider, the body names a known source and that source's model of the same family |
| Generation.BodyAfterUnknownProvider | index.js:344 | after the provider handler threw, the unknown provider stays stored and the next body names it as the source |
| Generation.ResolutionOffered | index.js:351 | after the model handler, a size sent to a pro or flash2 model is one its dropdown offers, and "512" only to flash2 |
| Generation.FirstImage | index.js:391-398 | `None` iff no part carries inline data; otherwise the image of the first part that does |
| Generation.ImageOf | index.js:393-395 | the image has the part's data; its MIME type is the part's when given, otherwise `image/png` |
| Generation.ErrorMessage | index.js:377-386 | the thrown message is never empty: `error.message`, else `message`, else `API Error: <status>` |
| Generation.Classify | index.js:377-406 | a reply that is not ok fails with `ErrorMessage`; every failure has a message; the outcome is `Unreadable` iff the success body does not parse |
| Generation.ImageWinsOverText | index.js:391-398 | an image in any part wins over any text, and it is the first such part's image |
| Generation.NoImageFails | index.js:400-406 | without an image part, the call fails with the text-instead-of-image message when text came, otherwise with the no-image message |
| Generation.GeneratedImageComplete | index.js:393-395 | a generated image always has data and a MIME type, and comes from an ok reply |
| Generation.FindImage | index.js:391-398 | the loop over the parts returns `FirstImage` |
| Generation.ReadResponse | index.js:377-406 | reading the reply gives `Classify` |
| Generation.GenerateImageFromPrompt | index.js:337-406 | the body posted is `Body` over `buildMessages`' result, and the outcome is the classification of the reply |
| Media.Attachment | index.js:546-551 | an image attachment for the saved file, marked as generated, titled by the prefix of the prompt of exactly min(100, length) characters |
| Media.Attached | index.js:534-555 | the new attachment is last and is the one `media_index` selects; earlier attachments are kept in order; a display mode already set is kept, otherwise it becomes gallery; `inline_image` is set |
| Media.AttachedTwice | index.js:553-554 | two generations add two attachments in order and select the second |
| Media.ChatEntry.constructor | index.js:505-506 | a message with its text and `extra` object |
| Media.ChatEntry.AddGeneratedImage | index.js:534-555 | the message's `extra` becomes `Attached` of the old one, with the attachment for the message's text |

## Left out

- I/O and the host are parameters. This covers `fetch`, `getBase64Async`, the settings template, `saveSettingsDebounced`, `saveChatConditional`, `saveBase64AsFile`, `appendMediaToMessage`, toasts and logging.
- The DOM is left out: `renderGallery`, `viewGalleryImage`, the dropdown markup, the provider and model display names, and the button states of `generateImage`, `cigMessageButton` and `injectMessageButton`.
- The choice of the chat message in `cigMessageButton`, the sender text it builds, and `slashCommandHandler` are glue around `generateImageFromPrompt` and are not modelled.
- Strings are sequences of characters, not UTF-16 code units, so `substring` limits count characters.
- `Settings.SettingsStore.LoadDefaults`: the default `gallery` array is an object shared by reference in JavaScript, so every merge uses the same array object. The model copies values, so this aliasing is not captured.
- `Chat.Recent`: a `fromMessageId` past the end of a non-empty chat makes the source read an undefined entry and throw when `depth > 0`. `FromInRange` excludes that input rather than modelling the exception. It also excludes the harmless case `depth <= 0`, where the source returns `[]` without reading the chat.
- `Assembly.Depth`: `message_depth || 1` is modelled on integers. A depth that is not a number is not modelled.
- `Gallery.GalleryStore.Delete`: `splice` with an `undefined` index, and a stored gallery that is `null` when deleting, are not modelled. The index is an integer and the list is present.
- `Models.FamilyOf`: the `'3-pro'` test in `updateModelDropdown` is subsumed by the `'pro'` test. It is kept as written, and no separate property is stated about it.
- The jQuery `option[value="…"]` lookup in `updateSizeDropdown` is modelled as membership in the option list. A size whose text breaks the selector is not considered.
- `Generation.Classify`: a success body that is not JSON, or is `null`, makes `response.json()` or the property read throw. Its message comes from the JavaScript engine, so it is the outcome `Unreadable`, without a message.
- `Generation.Classify`: values of unexpected JSON types are not modelled. This covers a non-string `content` or `message`, and a non-array `parts`.
- `Generation.ErrorMessage`: an error text that parses to `null` or to a non-object counts the same as one that does not parse. In both cases the source keeps the status message.
- `Media.ChatEntry.AddGeneratedImage`: an `extra` that is missing or not an object is replaced by a fresh object. Other keys of `extra` are not modelled.
- `Media.ChatEntry.AddGeneratedImage`: the host's `MEDIA_TYPE`, `MEDIA_SOURCE` and `MEDIA_DISPLAY` constants are left abstract, except for the gallery display mode.
