# Resources service: media aggregate, validation, ownership and listing

This project models the resource back end of a university resource-sharing
service. A *resource* is a titled record (URL or DOCUMENT) owned by one
student. It carries optional description, course code and hashtags, and a
`media` aggregate. The aggregate is an object with the ordered lists `files`,
`images`, `videos`, `urls` and, after a multipart upload, `documents`.

The model covers six parts of the service:

- **File service.** It finds, removes and patches one media entry by its `id`.
  The search visits `files`, `images`, `videos` and `urls` in that order and
  never visits `documents`. The service also wraps the result of one upload
  and prefixes its error message.
- **Media-host adapter.** It builds the `public_id` of an upload as
  `<timestamp>-<sanitised file name>` and maps the host's answer onto the
  upload result.
- **Validators.** These are the create and update validators. Each collects
  its messages in check order, then passes, throws one joined message, or
  throws a TypeError.
- **Resource service.** It shapes the inserted and patched records. Update
  and delete check for a missing record first and for a foreign owner
  second, both before any write. The listing applies its filters and then
  orders the rows newest first. The database is a map from id to row, owned
  by a `Store` object.
- **Resource record.** The record sets two defaults and projects onto exactly
  eleven keys.
- **HTTP handlers.** Each handler is a chain of early-return guards. The
  model also covers the 8-4-4-4-12 hex id check and the multipart upload loop
  that fills the `media` lists of a new resource.

Values are modelled by a `Json` datatype: `undefined`, `null`, booleans,
integers, strings, arrays and objects. `Truthy` gives JavaScript
truthiness. A property read on `null` or `undefined` is modelled as a
TypeError outcome, not a precondition. Three things are parameters of the
model:

- the clock and the database's generated ids;
- database failures;
- the media host's answer for each file.

`JSON.parse` and the URL parser are also function parameters.

Addressing of media entries follows the code: entries are addressed by
their `id` field, and a found entry's category is reported by name. An
uploaded file is classified by the resource type the host reports
(`image`, `video`, anything else). Three things are not part of this model,
because no exported handler uses them:

- a file-extension allow-list;
- category-local counters;
- delete or patch by index.

The update handler takes no file uploads. A caller-supplied `media` replaces
the stored aggregate whole.

## Model

| member | source | states |
|---|---|---|
| Text.Trim | src/api/validators/resource_validator.js:5 | `trim` drops exactly the leading and trailing ECMAScript whitespace. The result is empty iff every character is whitespace, and otherwise neither starts nor ends with whitespace. It is an infix of the input, and everything before and after it is whitespace |
| Text.TrimMargins | src/api/validators/resource_validator.js:5 | the trimmed string sits in the input right after the leading whitespace, and only whitespace follows it |
| Text.TrimIdempotent | src/domain/services/resource_service.js:115 | trimming a trimmed string changes nothing |
| Text.Upper | src/api/validators/resource_validator.js:13 | `toUpperCase` keeps the length and maps each character through ASCII upper-casing |
| Text.NatToString | src/infrastructure/cloudinary/cloudinary.js:24 | the decimal rendering of a timestamp is non-empty, all digits, with no leading zero |
| Text.DigitsValueOfNatToString | src/infrastructure/cloudinary/cloudinary.js:24 | reading back the decimal rendering of `n` gives `n` |
| Text.Join | src/api/validators/resource_validator.js:119-121 | `join(", ")` of no messages is empty and of one message is that message. With more, it starts with the first message followed by the separator |
| Text.JoinAppend | src/api/validators/resource_validator.js:119-121 | joining one more message appends the separator and that message, so the joined string is fixed message by message |
| Text.Utf16Length | src/api/validators/resource_validator.js:7 | JavaScript's `length` counts UTF-16 code units: at least one and at most two per character |
| Text.Utf16LengthOfBmp | src/api/validators/resource_validator.js:7 | the UTF-16 length equals the number of characters iff no character lies above U+FFFF |
| Text.Utf16LengthAppend | src/api/validators/resource_validator.js:7 | the UTF-16 length of a concatenation is the sum of the lengths |
| Text.Utf16LengthPrefix | src/api/validators/resource_validator.js:7 | a prefix's UTF-16 length is its first character's units plus the rest of the prefix |
| Text.Utf16LengthSlice | src/api/validators/resource_validator.js:7 | a slice is never longer in UTF-16 code units than its string |
| Text.Utf16LengthOfTrim | src/domain/services/resource_service.js:115 | trimming never makes a string longer in UTF-16 code units |
| Cloudinary.Sanitize | src/infrastructure/cloudinary/cloudinary.js:24 | the sanitised name has exactly as many characters as the name has UTF-16 code units |
| Cloudinary.SanitizeUnits | src/infrastructure/cloudinary/cloudinary.js:24 | one character is written as one replacement per UTF-16 code unit: two for a character above U+FFFF |
| Cloudinary.SanitizeAppend | src/infrastructure/cloudinary/cloudinary.js:24 | the global replace works character by character, so sanitising distributes over concatenation |
| Cloudinary.SanitizeFixes | src/infrastructure/cloudinary/cloudinary.js:24 | a name of ASCII letters, digits and '-' is left unchanged |
| Cloudinary.SanitizeAlphabet | src/infrastructure/cloudinary/cloudinary.js:24 | every character of a sanitised name is an ASCII letter, an ASCII digit or '-' |
| Cloudinary.SanitizeKeepsAlphanumerics | src/infrastructure/cloudinary/cloudinary.js:24 | each character lands at its UTF-16 offset: an ASCII letter or digit is kept, and any other character becomes one '-' per code unit |
| Cloudinary.SanitizeIdempotent | src/infrastructure/cloudinary/cloudinary.js:24 | sanitising a sanitised name changes nothing |
| Cloudinary.PublicIdParts | src/infrastructure/cloudinary/cloudinary.js:24 | a public id splits back into the timestamp's digits (whose value is the timestamp), one '-', and the sanitised name, whose length is the name's UTF-16 length |
| Cloudinary.UploadRequest | src/infrastructure/cloudinary/cloudinary.js:18-27 | an upload goes to folder `resources` with type `auto`, with `use_filename` and `unique_filename` set, under the public id `<timestamp>-<sanitised name>` (so `PublicIdParts` applies), whose length is digits + 1 + the name's UTF-16 length |
| Cloudinary.UploadToCloudinary | src/infrastructure/cloudinary/cloudinary.js:28-39 | a host error rejects with that error. A host result resolves with `secure_url`, `public_id`, `resource_type`, `format` and `bytes` mapped to `url`, `publicId`, `resourceType`, `format` and `size` |
| FileService.FirstMatch | src/domain/services/file_service.js:44 | `find` by id gives the smallest index whose entry's `id` strictly equals the id, or none when no entry matches |
| FileService.LocateFrom | src/domain/services/file_service.js:42-49 | searching from a category rank yields a matching entry at the first match of its category, with no match in any earlier searched category; or no hit when no searched category matches |
| FileService.LocateMovesOn | src/domain/services/file_service.js:66-75 | a category without a match hands the search on to the next category |
| FileService.LocateStopsAt | src/domain/services/file_service.js:68-72 | a category with a match ends the search at its first match |
| FileService.Locate | src/domain/services/file_service.js:37-51 | the search acts on an entry iff the id is truthy and some searched category matches, and the entry it acts on is the first hit in search order |
| FileService.FirstHitUnique | src/domain/services/file_service.js:40-49 | there is at most one first hit, so every operation acts on the same entry |
| FileService.Tagged | src/domain/services/file_service.js:46 | the returned copy has `type` set to the category name and every other field of the entry |
| FileService.FindFileById | src/domain/services/file_service.js:36-52 | the result is null for a missing media object or a falsy id. Otherwise it is the first hit tagged with its category, or null exactly when no files, images, videos or urls entry has that id |
| FileService.RemoveAt | src/domain/services/file_service.js:71 | `splice(i, 1)` drops exactly the element at `i`: one shorter, and the same multiset less that element |
| FileService.RemovedTakesFirstHit | src/domain/services/file_service.js:66-75 | removal returns the first hit and takes exactly it out of its category, one shorter with the rest in order. Every other category is unchanged |
| FileService.RemovedWithoutMatch | src/domain/services/file_service.js:60-78 | with a falsy id or no match, media is unchanged and nothing is removed |
| FileService.RemovedAgreesWithFind | src/domain/services/file_service.js:36-78 | removal removes something iff find finds something, and it is the entry find reports apart from the `type` tag |
| FileService.DocumentsUntouched | src/domain/services/file_service.js:60-109 | neither removal nor patching ever changes `documents` |
| FileService.PatchEntry | src/domain/services/file_service.js:97-102 | only `caption` and `originalName` can change. Each takes the update's value when it is defined, and otherwise keeps its own |
| FileService.PatchedChangesOnlyFirstHit | src/domain/services/file_service.js:92-106 | patching changes only the first hit's `caption` and `originalName`. Its `id`, `url`, `publicId` and other fields, the other entries and the other categories keep their values |
| FileService.PatchedWithoutMatch | src/domain/services/file_service.js:87-109 | with a falsy id or update object, or no match, media is unchanged |
| FileService.Media.constructor | src/domain/services/file_service.js:36 | a media object holds the categories of the given aggregate |
| FileService.Media.Category | src/domain/services/file_service.js:43 | reading `media[name]` gives that category of the aggregate the object holds |
| FileService.Media.SetCategory | src/domain/services/file_service.js:71 | writing one category changes that category and no other |
| FileService.FindIndex | src/domain/services/file_service.js:68 | `findIndex` returns -1 iff no entry matches; otherwise the index of the first match |
| FileService.FindIndexIsFirstMatch | src/domain/services/file_service.js:68 | the loop's index agrees with the declarative first match |
| FileService.RemoveInCategory | src/domain/services/file_service.js:67-74 | one iteration removes iff its category holds a match. Then the object holds the removal result; otherwise it is unchanged and the search moves on |
| FileService.RemoveFileById | src/domain/services/file_service.js:60-78 | the same media object is returned, and afterwards it holds exactly the aggregate and removed entry of the removal specification. A null media gives no removed entry |
| FileService.RemoveFirstHit | src/domain/services/file_service.js:66-75 | the loop with `break` over the four categories ends in the removal specification |
| FileService.PatchInCategory | src/domain/services/file_service.js:93-104 | one iteration patches iff its category holds a match. Then the object holds the patch result; otherwise it is unchanged and the search moves on |
| FileService.UpdateFileById | src/domain/services/file_service.js:87-109 | the same media object is returned, and afterwards it holds exactly the patch specification of its old value |
| FileService.PatchFirstHit | src/domain/services/file_service.js:92-106 | the loop with `break` over the four categories ends in the patch specification |
| FileService.UploadFile | src/domain/services/file_service.js:6-19 | a host result gives the five mapped fields. A host error gives "Failed to upload file: " followed by the host's message |
| ResourceValidator.VerdictOf | src/api/validators/resource_validator.js:119-123 | a validator passes iff no message was collected, and crashes iff a TypeError came first. Otherwise it throws one error whose message is all messages, in check order, joined by ", " |
| ResourceValidator.CheckItems | src/api/validators/resource_validator.js:40-49 | the `forEach` over a category collects, per element in order, the url message then the id message. It throws when an element is null or undefined |
| ResourceValidator.ItemsErrorsCrashSticks | src/api/validators/resource_validator.js:40-49 | once an element throws, the whole `forEach` throws |
| ResourceValidator.CheckCategory | src/api/validators/resource_validator.js:37-50 | a truthy non-array gets the "must be an array" message, a truthy array its element messages, and a falsy value none |
| ResourceValidator.CheckTags | src/api/validators/resource_validator.js:106-115 | the `for...of` with `break` reports the first non-string or over-long tag only |
| ResourceValidator.CheckHashtags | src/api/validators/resource_validator.js:102-117 | null and undefined hashtags pass, a non-array gets one message, and an array its first bad tag |
| ResourceValidator.CheckMedia | src/api/validators/resource_validator.js:18-81 | the media block gives its messages in source order: missing, not an object, empty, files not an array, then images, videos and urls |
| ResourceValidator.ValidateCreateResource | src/api/validators/resource_validator.js:1-124 | create validation reaches the verdict of its error list: title, type, media, description, course code, hashtags |
| ResourceValidator.CheckDisallowed | src/api/validators/resource_validator.js:142-146 | one "Cannot update field: f" per listed field `f` the body owns, in list order |
| ResourceValidator.ValidateUpdateResource | src/api/validators/resource_validator.js:126-214 | update validation reaches the verdict of its error list. A non-string `resource_type` throws a TypeError |
| ValidatorProperties.ItemsAcceptedIff | src/api/validators/resource_validator.js:40-49 | no element message iff every element has a non-empty string `url` and a string `id` if any |
| ValidatorProperties.TagsAcceptedIff | src/api/validators/resource_validator.js:106-115 | no tag message iff every tag is a string of at most 50 UTF-16 code units |
| ValidatorProperties.MediaAcceptedIff | src/api/validators/resource_validator.js:18-81 | no media message iff media is an object with one non-empty list among files, images, videos, urls, files is an array if truthy, and the other three lists are well formed |
| ValidatorProperties.CreateAcceptedIff | src/api/validators/resource_validator.js:1-124 | create validation returns true iff every check holds (both directions) |
| ValidatorProperties.ScalarChecksIff | src/api/validators/resource_validator.js:5-117 | each of title, type, description, course code and hashtags passes iff its own acceptance condition holds |
| ValidatorProperties.TitleIff | src/api/validators/resource_validator.js:5-9 | a title passes iff it is a string, non-empty after trim, of at most 255 UTF-16 code units untrimmed |
| ValidatorProperties.TypeIff | src/api/validators/resource_validator.js:11-15 | a type passes iff it is a string whose upper case is URL or DOCUMENT |
| ValidatorProperties.TextIff | src/api/validators/resource_validator.js:84-99 | description or course code passes iff it is null, undefined, or a string whose UTF-16 length is within its limit |
| ValidatorProperties.HashtagsIff | src/api/validators/resource_validator.js:102-117 | hashtags pass iff null, undefined, or an array of strings of at most 50 UTF-16 code units |
| ValidatorProperties.OnlyDocumentsRejected | src/api/validators/resource_validator.js:24-29 | a media object whose only content is `documents` is rejected with the emptiness message |
| ValidatorProperties.OnlyDocumentsMediaErrors | src/api/validators/resource_validator.js:24-29 | such a media object yields exactly the emptiness message and no category error |
| ValidatorProperties.FilesEntriesNotInspected | src/api/validators/resource_validator.js:27-34 | the elements of `media.files` never affect create validation, only whether the array is non-empty |
| ValidatorProperties.CreateErrorsReadsMembers | src/api/validators/resource_validator.js:1-124 | create validation sees a body only through its members, and sees `media` only through the media checks |
| ValidatorProperties.FilesEntriesNotInspectedByMedia | src/api/validators/resource_validator.js:27-34 | swapping one non-empty files array for another leaves the media messages unchanged |
| ValidatorProperties.AtMostOneHashtagError | src/api/validators/resource_validator.js:102-117 | at most one hashtag message is reported, whatever the hashtags |
| ValidatorProperties.AtMostOneTagError | src/api/validators/resource_validator.js:106-115 | at most one message comes out of the tag loop |
| ValidatorProperties.TypeCaseInsensitive | src/api/validators/resource_validator.js:11-162 | create and update accept or reject a type exactly as they do its upper-cased form |
| ValidatorProperties.DisallowedErrorsMembers | src/api/validators/resource_validator.js:139-146 | a message is among the disallowed-field messages iff it names a listed field the body owns |
| ValidatorProperties.UpdateReportsProtectedFields | src/api/validators/resource_validator.js:139-146 | update validation reports "Cannot update field: f" for a protected `f` iff the body owns `f`, and these messages come first |
| ValidatorProperties.DisallowedErrorsNone | src/api/validators/resource_validator.js:142-146 | a body owning none of the listed fields gets no disallowed-field message |
| ValidatorProperties.DisallowedErrorsFrame | src/api/validators/resource_validator.js:142-146 | the disallowed-field messages depend only on which listed fields the body owns |
| ValidatorProperties.UpdateWithoutCheckedFieldsPasses | src/api/validators/resource_validator.js:148-213 | an object with none of the checked fields passes update validation |
| ValidatorProperties.UpdateErrorsReadsMembers | src/api/validators/resource_validator.js:126-214 | update validation depends only on the members and own keys other than `media` |
| ValidatorProperties.UpdateIgnoresMedia | src/api/validators/resource_validator.js:148-213 | `media` is never validated on update: replacing it leaves the outcome unchanged |
| ValidatorProperties.UpdateAcceptedIff | src/api/validators/resource_validator.js:126-214 | update validation returns true iff every check holds for the fields present (both directions) |
| ValidatorProperties.UpdateScalarChecksIff | src/api/validators/resource_validator.js:149-162 | a present update title or type passes iff it meets the create condition |
| ValidatorProperties.UpdateTitleIff | src/api/validators/resource_validator.js:149-155 | an update title passes iff it is absent or a non-blank string of at most 255 UTF-16 code units |
| ValidatorProperties.UpdateTypeIff | src/api/validators/resource_validator.js:158-162 | an update type passes iff it is absent or a string whose upper case is URL or DOCUMENT |
| ValidatorProperties.DisallowedEmptyIff | src/api/validators/resource_validator.js:139-146 | there is no disallowed-field message iff the body owns none of id, owner_id, created_at, upvote_count |
| ResourceModel.Or | src/domain/models/resource_model.js:10-11 | `v \|\| d` is `v` when truthy and `d` otherwise |
| ResourceModel.FromDatabase | src/domain/models/resource_model.js:2-18 | a record always has truthy hashtags, and an upvote count that is truthy or 0 |
| ResourceModel.ToJson | src/domain/models/resource_model.js:20-34 | `toJSON` has exactly the eleven listed keys |
| ResourceModel.ToJsonCopiesIdentity | src/domain/models/resource_model.js:2-14 | id, owner_id, created_at and owner pass through unchanged, `undefined` included |
| ResourceModel.ToJsonCopiesContent | src/domain/models/resource_model.js:5-9 | title, description, resource_type, media and course_code pass through unchanged, `undefined` included |
| ResourceModel.ToJsonDefaults | src/domain/models/resource_model.js:10-34 | hashtags default to [] and upvote_count to 0 when falsy, and every unlisted row key such as `file_url` is dropped |
| ResourceModel.ToJsonRestoresRow | src/domain/models/resource_model.js:2-34 | a row with all eleven keys and no falsy default serialises back to itself restricted to those keys |
| ResourceModel.FromDatabaseOfToJson | src/domain/models/resource_model.js:16-34 | reading back a serialised record gives the same record |
| ResourceService.TrimOrNull | src/domain/services/resource_service.js:116-117 | `v?.trim() \|\| null` is null for absent or all-whitespace values, the non-empty trimmed string otherwise, and throws for non-strings |
| ResourceService.InsertData | src/domain/services/resource_service.js:113-122 | building the insert succeeds iff the body can be read, title and type are strings, and description and course code are absent, null or strings |
| ResourceService.InsertShape | src/domain/services/resource_service.js:113-122 | the insert row has owner = caller, upvote_count 0, a trimmed title, trimmed-or-null texts, the upper-cased type, media unchanged and hashtags defaulting to [] |
| ResourceService.Stored | src/domain/services/resource_service.js:124-131 | the stored row carries the generated id |
| ResourceService.UpdatePatch | src/domain/services/resource_service.js:164-170 | building `updateData` throws exactly in the TypeError cases: a truthy non-string title or type, or a description or course code with no `trim` |
| ResourceService.BuildUpdateData | src/domain/services/resource_service.js:164-170 | the conditional assignments build exactly the patch specification |
| ResourceService.Apply | src/domain/services/resource_service.js:172-180 | an update leaves every column outside title, description, course_code, resource_type, media and hashtags unchanged |
| ResourceService.ApplyKeepsIdentity | src/domain/services/resource_service.js:164-176 | an update never changes `id` or `owner_id` |
| ResourceService.ApplyWritesTexts | src/domain/services/resource_service.js:165-167 | title, description and course_code take the patch's value where it assigns one, and otherwise keep theirs |
| ResourceService.ApplyWritesOthers | src/domain/services/resource_service.js:168-170 | resource_type, media (whole) and hashtags take the patch's value where it assigns one, and otherwise keep theirs |
| ResourceService.Store.constructor | src/domain/services/resource_service.js:124-126 | a store holds the given table, given that every row's `id` is its key, and it starts out valid |
| ResourceService.Store.GetResourceById | src/domain/services/resource_service.js:87-108 | a database error gives "Failed to fetch resource: ..."; otherwise null for a missing id, else the record read from its row, carrying the requested id and the owner |
| ResourceService.Store.CreateResource | src/domain/services/resource_service.js:110-138 | a TypeError while shaping writes nothing, and a database error writes nothing and rethrows with the prefix. Otherwise exactly the shaped row is added under the new id and returned as a record |
| ResourceService.Store.Insert | src/domain/services/resource_service.js:124-137 | the insert adds exactly one row, or on error nothing |
| ResourceService.Store.UpdateResource | src/domain/services/resource_service.js:140-187 | it succeeds iff the row exists, the caller owns it, the patch builds and the write succeeds. A missing row gives null and a foreign owner FORBIDDEN, both before any write. On success only that row changes, to the patched row, keeping its owner |
| ResourceService.Store.Write | src/domain/services/resource_service.js:172-186 | the write replaces exactly that row with the patched row, or on error changes nothing |
| ResourceService.Store.DeleteResource | src/domain/services/resource_service.js:189-222 | it returns true and removes exactly that row iff the row exists, the caller owns it and the delete succeeds. Missing gives null and a foreign owner FORBIDDEN, with nothing removed |
| ResourceService.ConditionsMeanListed | src/domain/services/resource_service.js:34-68 | the accumulated query clauses hold for a row iff it meets every given filter: owner for `my`, a followed owner for `following`, exact course code, contained hashtag, and the search in title or description |
| ResourceService.Select | src/domain/services/resource_service.js:73 | the selected rows are exactly the table rows meeting every clause, each as often as in the table |
| ResourceService.NewestFirstPairwise | src/domain/services/resource_service.js:71 | ordered neighbour by neighbour means ordered between any two rows |
| ResourceService.InsertByStamp | src/domain/services/resource_service.js:71 | insertion adds exactly the one row |
| ResourceService.InsertByStampSorted | src/domain/services/resource_service.js:71 | inserting into a newest-first list keeps it newest first |
| ResourceService.SortByNewest | src/domain/services/resource_service.js:71 | ordering by `created_at` descending gives a newest-first permutation of its input |
| ResourceService.Resources | src/domain/services/resource_service.js:79 | each row is read into a record, in order |
| ResourceService.ScopeQuery | src/domain/services/resource_service.js:34-53 | `my` without a caller fails with "Authentication required to view your resources", and `following` with nobody followed answers empty. Otherwise it adds the owner clause |
| ResourceService.GetAllResources | src/domain/services/resource_service.js:22-85 | `my` without a caller fails, and `following` with nobody followed answers {[], 0, "following"}. Otherwise a database error rethrows with the prefix, or the answer is the filtered rows newest first, their count and the echoed filter (default "all") |
| ResourceService.ListingSelectsFilteredRows | src/domain/services/resource_service.js:56-84 | a listed row is exactly a table row meeting every given filter, as often as in the table, and the list is newest first |
| ResourceService.ShapedTitle | src/domain/services/resource_service.js:115 | a validated title is stored non-blank and within 255 UTF-16 code units |
| ResourceService.ShapedType | src/domain/services/resource_service.js:118 | a validated type is stored as URL or DOCUMENT |
| ResourceService.ValidatedCreateShapes | src/domain/services/resource_service.js:113-122 | a body that passes create validation shapes without a TypeError into a record with a non-blank title and a known type |
| ResourceService.ValidatedUpdatePatches | src/domain/services/resource_service.js:164-170 | a body that passes update validation patches without a TypeError; a written title is non-blank and a written type is known |
| ResourceService.PassedCreateInserts | src/domain/services/resource_service.js:113-122 | any body with an empty create error list builds its insert |
| ResourceService.PassedUpdatePatches | src/domain/services/resource_service.js:164-170 | any body with an empty update error list builds its patch |
| ResourceController.UuidFromGroups | src/api/controllers/resource_controller.js:47-48 | five hex groups of 8, 4, 4, 4 and 12 digits of either case joined by hyphens form an accepted id |
| ResourceController.UuidIsGroups | src/api/controllers/resource_controller.js:189-190 | every accepted id is such a join of its own five hex groups |
| ResourceController.FileData | src/api/controllers/resource_controller.js:111-117 | each uploaded entry has `caption` null and no `id` |
| ResourceController.Uploaded | src/api/controllers/resource_controller.js:108-109 | the loop either yields one result per file or reports a failure at an index of the files |
| ResourceController.Entries | src/api/controllers/resource_controller.js:111-117 | the entries of a result list correspond one for one, in order |
| ResourceController.OfBucket | src/api/controllers/resource_controller.js:120-126 | the results going to one list are a subsequence of the uploads |
| ResourceController.DistributeContents | src/api/controllers/resource_controller.js:108-129 | every uploaded file is in `files` in upload order, and in the list its reported type picks (image, video, else documents), in upload order there too |
| ResourceController.DistributePartition | src/api/controllers/resource_controller.js:99-129 | `files.length` = number of files = images + videos + documents, and `files` holds the same entries as the three lists together |
| ResourceController.UploadFiles | src/api/controllers/resource_controller.js:99-139 | the push loop builds exactly the distributed lists, or stops at the first failure; the number of uploads attempted is that failure's position + 1, or all |
| ResourceController.UploadedFailureSticks | src/api/controllers/resource_controller.js:108-139 | once an upload fails, the whole loop's outcome is that failure |
| ResourceController.UploadedFailureIsFirst | src/api/controllers/resource_controller.js:130-139 | the failure reported is the first failing upload with its message, and every earlier upload succeeded |
| ResourceController.AllUploadsSucceeded | src/api/controllers/resource_controller.js:108-129 | when the loop succeeds, every upload succeeded |
| ResourceController.FormData | src/api/controllers/resource_controller.js:142-149 | multipart resource data always has type DOCUMENT and the built media |
| ResourceController.PrepareMultipart | src/api/controllers/resource_controller.js:97-149 | the multipart branch yields its resource data or its 500 FILE_UPLOAD_FAILED or engine-error response, after the stated number of uploads |
| ResourceController.MultipartShape | src/api/controllers/resource_controller.js:142-167 | resource data built from a multipart request follows a fully successful upload loop, and carries type DOCUMENT and every upload in its media, before validation runs |
| ResourceController.FailureIsNotForbidden | src/api/controllers/resource_controller.js:253 | a message that starts with the rethrow prefix never reads as FORBIDDEN |
| ResourceController.FailureIsNotAuthDemand | src/api/controllers/resource_controller.js:28 | a message that starts with the rethrow prefix never reads as the sign-in demand |
| ResourceController.ListResources | src/api/controllers/resource_controller.js:5-39 | `my` without a caller gives 401, and following nobody gives 200 with an empty list. A database error goes to `next`; otherwise 200 with the filtered, newest-first listing |
| ResourceController.GetResourceById | src/api/controllers/resource_controller.js:41-77 | an id failing the pattern gives 400 INVALID_UUID before the store is read, and a missing record 404. The answer is 200 iff the id is well formed, the read succeeds and the row exists |
| ResourceController.CreateResource | src/api/controllers/resource_controller.js:79-179 | 401 with no caller, before any upload. A failed upload gives 500 with the first error. Rejected data gives 400 VALIDATION_ERROR. Valid data is always inserted unless the database fails: 201 with "Resource created successfully" and the stored row as a record carrying the owner, and exactly that row added. Nothing changes unless the answer is 201 |
| ResourceController.UpdateRefusal | src/api/controllers/resource_controller.js:188-219 | the guards run in order INVALID_UUID, then 401, then EMPTY_REQUEST_BODY, and let a request through iff none applies |
| ResourceController.SubmitUpdate | src/api/controllers/resource_controller.js:235-262 | after the guards, a missing record gives 404 and another owner's record 403 with nothing written. A validated body never causes an engine error. The answer is 200 iff the caller owns the row and the write succeeds. Then only that row is patched, and the answer carries "Resource updated successfully" and the patched row as a record with the owner |
| ResourceController.UpdateResource | src/api/controllers/resource_controller.js:181-264 | guards, then 400 VALIDATION_ERROR, then the service. For an admitted request, a failed lookup is rethrown, a missing record gives 404 and another owner's record 403. The answer is 200 iff every check passes, the caller owns the row and the write succeeds, and nothing changes unless the answer is 200. A 200 patches only that row and returns it as a record with the owner |
| ResourceController.DeleteResource | src/api/controllers/resource_controller.js:266-322 | 400 INVALID_UUID, then 401, then 404, then 403, all before any delete. The answer is 200 iff the caller owns the row and the delete succeeds, and then exactly that row is gone |
| ResourceController.UploadFile | src/api/controllers/resource_controller.js:324-365 | 401 with no caller, then 400 NO_FILE_PROVIDED with no file, then 500 FILE_UPLOAD_FAILED with the prefixed host error, else 200 with the upload result |

## Left out

- The database client is not part of this model. This covers client creation, bearer tokens, the `owner` join with `students`, and the followers query. A row's joined `owner` is a parameter. The followed owner ids are a parameter too, empty when the lookup fails or finds nothing, because the source ignores that lookup's error.
- Database-generated values are parameters. The new row's `id` is assumed fresh, and `created_at` is an integer timestamp.
- The media host's upload stream and `deleteFromCloudinary` are foreign calls. The outcome of each upload is a `HostAnswer` parameter. The file buffer is not modelled, and `deleteFile` is not modelled.
- Cloudinary.UploadRequest: the file name is taken as a string and the timestamp as a parameter. The `folder` argument is fixed at its default because no caller passes another.
- `JSON.parse` of multipart hashtags and the WHATWG URL parser behind `file_url` are function parameters. A failed parse is an engine error.
- TypeError and SyntaxError messages are not modelled: the model records only that such an error occurred (`Crashed`, `TypeFault`, `EngineError`).
- Express routing, multer limits, the Swagger annotations, the error middleware and the pass-through controller `src/api/controllers/resource.controller.js` are not part of this model. So are the index-addressed delete and patch routes, which name handlers the controller does not export, together with their error codes.
- Requests are sequential steps. Async execution, concurrent requests and last-write-wins races are not modelled.
- Text.Upper: case folding covers ASCII letters only, not Unicode `toUpperCase`; the same holds for `Text.Lower` in the search filter.
- ResourceService.ConditionsMeanListed: the search term is a plain case-insensitive substring. PostgREST `ilike` wildcards (`%`, `_`) and the `,` and parentheses of the `or` filter syntax are out of scope.
- ResourceService.SortByNewest: rows with equal `created_at` come out in one fixed order. The database leaves their order unspecified.
- Strings are sequences of Unicode scalar values. JavaScript lengths are measured in UTF-16 code units by `Text.Utf16Length`, and `Sanitize` writes two dashes for a character above U+FFFF. A lone surrogate, which a JavaScript string can hold, cannot be represented. Floating-point numbers are not modelled.
- FileService.FindFileById: media entries are modelled as objects. A `null` or primitive element inside a category array, where the `f.id` read would throw or read `undefined`, is not modelled.
- FileService.Media.SetCategory: a category value is a sequence, so the aliasing between an uploaded entry in `files` and the same object in `images` or `videos` is not modelled. Patching one of them does not change the other in the model.
- ResourceService.GetAllResources: query parameters are modelled as strings or absent. Express can also deliver an array or an object (a repeated parameter such as `?filter=a&filter=b`), which `filter || 'all'` would echo back unchanged. Such values are not modelled.
