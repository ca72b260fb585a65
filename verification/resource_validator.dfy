/**
 * Request validation for resource creation and update. Each validator collects
 * error messages in check order and either accepts, throws one error whose
 * message joins them with ", ", or throws a TypeError when it reads a
 * property of `null`/`undefined` or calls `toUpperCase` on a non-string.
 * The pure functions below state the error list; the methods collect it
 * step by step as the validators do.
 */
module ResourceValidator {
  import opened Wrappers
  import opened JsonValues
  import opened Text

  /** What a validator call does: returns true, throws its joined messages, or throws a TypeError. */
  datatype Verdict = Passed | Rejected(message: string) | Crashed

  /** Error list of a validator run; `None` when it throws a TypeError first. */
  type Errors = Option<seq<string>>

  function VerdictOf(errors: Errors): (v: Verdict)
    ensures v == Passed <==> errors == Some([])
    ensures v == Crashed <==> errors.None?
    ensures errors.Some? && errors.value != [] ==> v == Rejected(Join(errors.value, ", "))
  {
    match errors
    case None => Crashed
    case Some(es) => if es == [] then Passed else Rejected(Join(es, ", "))
  }

  const TitleRequired := "title is required and must be a non-empty string"
  const TitleTooLong := "title must not exceed 255 characters"
  const TypeRequired := "resource_type is required"
  const TypeUnknown := "resource_type must be either URL or DOCUMENT"
  const MediaRequired := "media is required"
  const MediaNotObject := "media must be an object"
  const MediaEmpty := "media must contain at least one file, image, video, or url"
  const DescriptionNotString := "description must be a string"
  const DescriptionTooLong := "description must not exceed 5000 characters"
  const CourseCodeNotString := "course_code must be a string"
  const CourseCodeTooLong := "course_code must not exceed 20 characters"
  const HashtagsNotArray := "hashtags must be an array"
  const HashtagNotString := "all hashtags must be strings"
  const HashtagTooLong := "each hashtag must not exceed 50 characters"
  const TitleEmpty := "title must be a non-empty string"
  const FileUrlInvalid := "file_url must be a valid URL"

  predicate IsKnownType(s: string)
  {
    Upper(s) == "URL" || Upper(s) == "DOCUMENT"
  }

  // ---------------------------------------------------------------------------
  // Error lists of the individual checks

  function TitleErrors(title: Json): seq<string>
  {
    if !Truthy(title) || !title.Str? || |Trim(title.s)| == 0 then [TitleRequired]
    else if Utf16Length(title.s) > 255 then [TitleTooLong]
    else []
  }

  function TypeErrors(resourceType: Json): seq<string>
  {
    if !Truthy(resourceType) || !resourceType.Str? then [TypeRequired]
    else if !IsKnownType(resourceType.s) then [TypeUnknown]
    else []
  }

  function UrlMessage(category: string, index: nat): string
  {
    "media." + category + "[" + NatToString(index) + "].url is required and must be a string"
  }

  function IdMessage(category: string, index: nat): string
  {
    "media." + category + "[" + NatToString(index) + "].id must be a string"
  }

  /** The messages for one element of `images`, `videos` or `urls` (which can be dereferenced). */
  function ItemErrors(category: string, item: Json, index: nat): seq<string>
  {
    var url, id := Member(item, "url"), Member(item, "id");
    (if !Truthy(url) || !url.Str? then [UrlMessage(category, index)] else [])
    + (if id != Undefined && !id.Str? then [IdMessage(category, index)] else [])
  }

  /** The `forEach` over the first `n` elements. */
  function ItemsErrors(category: string, items: seq<Json>, n: nat): Errors
    requires n <= |items|
  {
    if n == 0 then Some([])
    else match ItemsErrors(category, items, n - 1)
      case None => None
      case Some(es) =>
        if !Dereferenceable(items[n - 1]) then None
        else Some(es + ItemErrors(category, items[n - 1], n - 1))
  }

  /** The checks of `media.images`, `media.videos` or `media.urls`. */
  function CategoryErrors(category: string, value: Json): Errors
  {
    if Truthy(value) && !value.Arr? then Some(["media." + category + " must be an array"])
    else if Truthy(value) then ItemsErrors(category, value.items, |value.items|)
    else Some([])
  }

  function MediaErrors(media: Json): Errors
  {
    if !Truthy(media) then Some([MediaRequired])
    else if !media.Obj? then Some([MediaNotObject])
    else
      var files := Member(media, "files");
      var images := CategoryErrors("images", Member(media, "images"));
      var videos := CategoryErrors("videos", Member(media, "videos"));
      var urls := CategoryErrors("urls", Member(media, "urls"));
      if images.None? || videos.None? || urls.None? then None
      else Some(EmptinessErrors(media) + (if Truthy(files) && !files.Arr? then ["media.files must be an array"] else [])
        + images.value + videos.value + urls.value)
  }

  /** None of files, images, videos, urls has a truthy length. */
  function EmptinessErrors(media: Json): seq<string>
  {
    if !HasLength(Member(media, "files")) && !HasLength(Member(media, "images"))
      && !HasLength(Member(media, "videos")) && !HasLength(Member(media, "urls"))
    then [MediaEmpty] else []
  }

  /** An optional string field with a length limit; `null` and `undefined` pass. */
  function TextErrors(value: Json, limit: nat, notString: string, tooLong: string): seq<string>
  {
    if value == Undefined || value == Null then []
    else if !value.Str? then [notString]
    else if Utf16Length(value.s) > limit then [tooLong]
    else []
  }

  /** The `for...of` over the hashtags: the first bad tag decides, and only one message is reported. */
  function TagErrors(tags: seq<Json>): seq<string>
  {
    if tags == [] then []
    else if !tags[0].Str? then [HashtagNotString]
    else if Utf16Length(tags[0].s) > 50 then [HashtagTooLong]
    else TagErrors(tags[1..])
  }

  function HashtagsErrors(hashtags: Json): seq<string>
  {
    if hashtags == Undefined || hashtags == Null then []
    else if !hashtags.Arr? then [HashtagsNotArray]
    else TagErrors(hashtags.items)
  }

  /** The error list of `validateCreateResource(data)`. */
  function CreateErrors(data: Json): Errors
  {
    if !Dereferenceable(data) then None
    else match MediaErrors(Member(data, "media"))
      case None => None
      case Some(media) => Some(
        TitleErrors(Member(data, "title"))
        + TypeErrors(Member(data, "resource_type"))
        + media
        + TextErrors(Member(data, "description"), 5000, DescriptionNotString, DescriptionTooLong)
        + TextErrors(Member(data, "course_code"), 20, CourseCodeNotString, CourseCodeTooLong)
        + HashtagsErrors(Member(data, "hashtags")))
  }

  const DisallowedFields: seq<string> := ["id", "owner_id", "created_at", "upvote_count"]

  const LockedFieldPrefix := "Cannot update field: "

  /** One message per disallowed field that `data` has as an own property, in list order. */
  function DisallowedErrors(data: Json, fields: seq<string>): seq<string>
  {
    if fields == [] then []
    else
      var own := if HasOwn(data, fields[0]) then [LockedFieldPrefix + fields[0]] else [];
      own + DisallowedErrors(data, fields[1..])
  }

  function UpdateTitleErrors(title: Json): seq<string>
  {
    if title == Undefined then []
    else if !title.Str? || |Trim(title.s)| == 0 then [TitleEmpty]
    else if Utf16Length(title.s) > 255 then [TitleTooLong]
    else []
  }

  /** `resource_type.toUpperCase()` throws for anything but a string. */
  function UpdateTypeErrors(resourceType: Json): Errors
  {
    if resourceType == Undefined then Some([])
    else if !resourceType.Str? then None
    else if !IsKnownType(resourceType.s) then Some([TypeUnknown])
    else Some([])
  }

  /** `new URL(file_url)` throwing is reported; `validUrl` stands for the WHATWG URL parser. */
  function FileUrlErrors(fileUrl: Json, validUrl: Json -> bool): seq<string>
  {
    if fileUrl == Undefined || validUrl(fileUrl) then [] else [FileUrlInvalid]
  }

  /**
   * The error list of `validateUpdateResource(data)`. A body with an own
   * `hasOwnProperty` key shadows the method, so the first call throws.
   */
  function UpdateErrors(data: Json, validUrl: Json -> bool): Errors
  {
    if !Dereferenceable(data) || HasOwn(data, "hasOwnProperty") then None
    else match UpdateTypeErrors(Member(data, "resource_type"))
      case None => None
      case Some(typeErrors) => Some(
        DisallowedErrors(data, DisallowedFields)
        + UpdateTitleErrors(Member(data, "title"))
        + typeErrors
        + FileUrlErrors(Member(data, "file_url"), validUrl)
        + TextErrors(Member(data, "description"), 5000, DescriptionNotString, DescriptionTooLong)
        + TextErrors(Member(data, "course_code"), 20, CourseCodeNotString, CourseCodeTooLong)
        + HashtagsErrors(Member(data, "hashtags")))
  }

  // ---------------------------------------------------------------------------
  // The validators, collecting messages as the source does

  /** The `forEach` over a category's elements, pushing per element. */
  method CheckItems(category: string, items: seq<Json>) returns (errors: Errors)
    ensures errors == ItemsErrors(category, items, |items|)
  {
    var collected: seq<string> := [];
    var i := 0;
    while i < |items|
      invariant 0 <= i <= |items|
      invariant ItemsErrors(category, items, i) == Some(collected)
    {
      var item := items[i];
      if !Dereferenceable(item) {
        ItemsErrorsCrashSticks(category, items, i + 1, |items|);
        return None;
      }
      assert ItemsErrors(category, items, i + 1) == Some(collected + ItemErrors(category, item, i));
      ghost var before := collected;
      var url, id := Member(item, "url"), Member(item, "id");
      if !Truthy(url) || !url.Str? {
        collected := collected + [UrlMessage(category, i)];
      }
      if id != Undefined && !id.Str? {
        collected := collected + [IdMessage(category, i)];
      }
      assert collected == before + ItemErrors(category, item, i);
      i := i + 1;
    }
    return Some(collected);
  }

  /** Once an element throws, the whole `forEach` throws. */
  lemma {:induction false} ItemsErrorsCrashSticks(category: string, items: seq<Json>, n: nat, m: nat)
    requires n <= m <= |items|
    requires ItemsErrors(category, items, n).None?
    ensures ItemsErrors(category, items, m).None?
    decreases m - n
  {
    if n < m {
      ItemsErrorsCrashSticks(category, items, n + 1, m);
    }
  }

  method CheckCategory(category: string, value: Json) returns (errors: Errors)
    ensures errors == CategoryErrors(category, value)
  {
    if Truthy(value) && !value.Arr? {
      errors := Some(["media." + category + " must be an array"]);
    } else if Truthy(value) {
      errors := CheckItems(category, value.items);
    } else {
      errors := Some([]);
    }
  }

  /** The `for...of` over the hashtags with its two `break`s. */
  method CheckTags(tags: seq<Json>) returns (errors: seq<string>)
    ensures errors == TagErrors(tags)
  {
    errors := [];
    var i := 0;
    while i < |tags|
      invariant 0 <= i <= |tags|
      invariant TagErrors(tags) == TagErrors(tags[i..])
    {
      var tag := tags[i];
      if !tag.Str? {
        errors := errors + [HashtagNotString];
        break;
      }
      if Utf16Length(tag.s) > 50 {
        errors := errors + [HashtagTooLong];
        break;
      }
      assert tags[i..][1..] == tags[i + 1..];
      i := i + 1;
    }
  }

  method CheckHashtags(hashtags: Json) returns (errors: seq<string>)
    ensures errors == HashtagsErrors(hashtags)
  {
    errors := [];
    if hashtags != Undefined && hashtags != Null {
      if !hashtags.Arr? {
        errors := [HashtagsNotArray];
      } else {
        errors := CheckTags(hashtags.items);
      }
    }
  }

  /** The `media` block of `validateCreateResource`. */
  method CheckMedia(media: Json) returns (errors: Errors)
    ensures errors == MediaErrors(media)
  {
    if !Truthy(media) {
      return Some([MediaRequired]);
    } else if !media.Obj? {
      return Some([MediaNotObject]);
    }
    var collected: seq<string> := [];
    var files, images, videos, urls :=
      Member(media, "files"), Member(media, "images"), Member(media, "videos"), Member(media, "urls");
    if !HasLength(files) && !HasLength(images) && !HasLength(videos) && !HasLength(urls) {
      collected := collected + [MediaEmpty];
    }
    if Truthy(files) && !files.Arr? {
      collected := collected + ["media.files must be an array"];
    }
    assert collected == EmptinessErrors(media) + (if Truthy(files) && !files.Arr? then ["media.files must be an array"] else []);
    var imageErrors := CheckCategory("images", images);
    if imageErrors.None? {
      return None;
    }
    var videoErrors := CheckCategory("videos", videos);
    if videoErrors.None? {
      return None;
    }
    var urlErrors := CheckCategory("urls", urls);
    if urlErrors.None? {
      return None;
    }
    collected := collected + imageErrors.value + videoErrors.value + urlErrors.value;
    return Some(collected);
  }

  /** `validateCreateResource(data)`. */
  method ValidateCreateResource(data: Json) returns (verdict: Verdict)
    ensures verdict == VerdictOf(CreateErrors(data))
  {
    if !Dereferenceable(data) {
      return Crashed;
    }
    var title, resourceType, media := Member(data, "title"), Member(data, "resource_type"), Member(data, "media");
    var description, courseCode, hashtags := Member(data, "description"), Member(data, "course_code"), Member(data, "hashtags");
    var errors := TitleErrors(title);
    errors := errors + TypeErrors(resourceType);
    var mediaErrors := CheckMedia(media);
    if mediaErrors.None? {
      return Crashed;
    }
    errors := errors + mediaErrors.value;
    errors := errors + TextErrors(description, 5000, DescriptionNotString, DescriptionTooLong);
    errors := errors + TextErrors(courseCode, 20, CourseCodeNotString, CourseCodeTooLong);
    var tagErrors := CheckHashtags(hashtags);
    errors := errors + tagErrors;
    assert CreateErrors(data) == Some(errors);

    if |errors| > 0 {
      return Rejected(Join(errors, ", "));
    }
    return Passed;
  }

  /** The loop over the disallowed field names. */
  method CheckDisallowed(data: Json, fields: seq<string>) returns (errors: seq<string>)
    ensures errors == DisallowedErrors(data, fields)
  {
    errors := [];
    var i := 0;
    while i < |fields|
      invariant 0 <= i <= |fields|
      invariant errors + DisallowedErrors(data, fields[i..]) == DisallowedErrors(data, fields)
    {
      var field := fields[i];
      assert fields[i..][1..] == fields[i + 1..];
      if HasOwn(data, field) {
        errors := errors + [LockedFieldPrefix + field];
      }
      i := i + 1;
    }
  }

  /** `validateUpdateResource(data)`; `validUrl` decides what `new URL(...)` accepts. */
  method ValidateUpdateResource(data: Json, validUrl: Json -> bool) returns (verdict: Verdict)
    ensures verdict == VerdictOf(UpdateErrors(data, validUrl))
  {
    if !Dereferenceable(data) || HasOwn(data, "hasOwnProperty") {
      return Crashed;
    }
    var title, resourceType, fileUrl := Member(data, "title"), Member(data, "resource_type"), Member(data, "file_url");
    var description, courseCode, hashtags := Member(data, "description"), Member(data, "course_code"), Member(data, "hashtags");
    var errors := CheckDisallowed(data, DisallowedFields);
    errors := errors + UpdateTitleErrors(title);
    if resourceType != Undefined {
      if !resourceType.Str? {
        return Crashed;
      }
      if !IsKnownType(resourceType.s) {
        errors := errors + [TypeUnknown];
      }
    }
    assert errors == DisallowedErrors(data, DisallowedFields) + UpdateTitleErrors(title)
      + UpdateTypeErrors(resourceType).value;
    errors := errors + FileUrlErrors(fileUrl, validUrl);
    errors := errors + TextErrors(description, 5000, DescriptionNotString, DescriptionTooLong);
    errors := errors + TextErrors(courseCode, 20, CourseCodeNotString, CourseCodeTooLong);
    var tagErrors := CheckHashtags(hashtags);
    errors := errors + tagErrors;
    assert UpdateErrors(data, validUrl) == Some(errors);

    if |errors| > 0 {
      return Rejected(Join(errors, ", "));
    }
    return Passed;
  }
}
