/**
 * What the validators accept, stated declaratively and proved equal to the
 * error lists they collect, plus the properties of the messages they report.
 */
module ValidatorProperties {
  import opened Wrappers
  import opened JsonValues
  import opened Text
  import opened ResourceValidator

  predicate TitleAccepted(title: Json)
  {
    title.Str? && |Trim(title.s)| > 0 && Utf16Length(title.s) <= 255
  }

  predicate TypeAccepted(resourceType: Json)
  {
    resourceType.Str? && IsKnownType(resourceType.s)
  }

  /** An element of images, videos or urls: an object-like value with a non-empty string `url` and a string `id` if any. */
  predicate ItemAccepted(item: Json)
  {
    && Dereferenceable(item)
    && Member(item, "url").Str? && |Member(item, "url").s| > 0
    && (Member(item, "id") == Undefined || Member(item, "id").Str?)
  }

  predicate CategoryAccepted(value: Json)
  {
    !Truthy(value) || (value.Arr? && forall i :: 0 <= i < |value.items| ==> ItemAccepted(value.items[i]))
  }

  predicate MediaAccepted(media: Json)
  {
    && media.Obj?
    && (HasLength(Member(media, "files")) || HasLength(Member(media, "images"))
        || HasLength(Member(media, "videos")) || HasLength(Member(media, "urls")))
    && (!Truthy(Member(media, "files")) || Member(media, "files").Arr?)
    && CategoryAccepted(Member(media, "images"))
    && CategoryAccepted(Member(media, "videos"))
    && CategoryAccepted(Member(media, "urls"))
  }

  predicate TextAccepted(value: Json, limit: nat)
  {
    value == Undefined || value == Null || (value.Str? && Utf16Length(value.s) <= limit)
  }

  predicate TagsAccepted(hashtags: Json)
  {
    hashtags == Undefined || hashtags == Null
    || (hashtags.Arr? && forall i :: 0 <= i < |hashtags.items| ==>
          hashtags.items[i].Str? && Utf16Length(hashtags.items[i].s) <= 50)
  }

  /** Every check of `validateCreateResource` holds. */
  predicate CreateAccepted(data: Json)
  {
    && Dereferenceable(data)
    && TitleAccepted(Member(data, "title"))
    && TypeAccepted(Member(data, "resource_type"))
    && MediaAccepted(Member(data, "media"))
    && TextAccepted(Member(data, "description"), 5000)
    && TextAccepted(Member(data, "course_code"), 20)
    && TagsAccepted(Member(data, "hashtags"))
  }

  lemma {:induction false} ItemsAcceptedIff(category: string, items: seq<Json>, n: nat)
    requires n <= |items|
    ensures ItemsErrors(category, items, n) == Some([]) <==> forall i :: 0 <= i < n ==> ItemAccepted(items[i])
  {
    if n > 0 {
      ItemsAcceptedIff(category, items, n - 1);
      var prev := ItemsErrors(category, items, n - 1);
      if prev == Some([]) && Dereferenceable(items[n - 1]) {
        assert ItemsErrors(category, items, n) == Some([] + ItemErrors(category, items[n - 1], n - 1));
        assert [] + ItemErrors(category, items[n - 1], n - 1) == ItemErrors(category, items[n - 1], n - 1);
      }
      if prev.Some? && prev != Some([]) && Dereferenceable(items[n - 1]) {
        assert |ItemsErrors(category, items, n).value| >= |prev.value| > 0;
      }
    }
  }

  lemma {:induction false} TagsAcceptedIff(tags: seq<Json>)
    ensures TagErrors(tags) == [] <==> forall i :: 0 <= i < |tags| ==> tags[i].Str? && Utf16Length(tags[i].s) <= 50
  {
    if tags != [] {
      TagsAcceptedIff(tags[1..]);
      assert forall i :: 1 <= i < |tags| ==> tags[i] == tags[1..][i - 1];
    }
  }

  lemma MediaAcceptedIff(media: Json)
    ensures MediaErrors(media) == Some([]) <==> MediaAccepted(media)
  {
    if media.Obj? {
      var images, videos, urls := Member(media, "images"), Member(media, "videos"), Member(media, "urls");
      if Truthy(images) && images.Arr? { ItemsAcceptedIff("images", images.items, |images.items|); }
      if Truthy(videos) && videos.Arr? { ItemsAcceptedIff("videos", videos.items, |videos.items|); }
      if Truthy(urls) && urls.Arr? { ItemsAcceptedIff("urls", urls.items, |urls.items|); }
    }
  }

  /**
   * `validateCreateResource` returns true exactly when every check holds: a
   * non-blank title of at most 255 UTF-16 code units, a type that upper-cases to URL
   * or DOCUMENT, a non-empty media object with well-formed images, videos and
   * urls, and optional description, course code and hashtags within limits.
   */
  lemma CreateAcceptedIff(data: Json)
    ensures ValidateCreateResourceSpec(data) == Passed <==> CreateAccepted(data)
  {
    if Dereferenceable(data) {
      MediaAcceptedIff(Member(data, "media"));
      ScalarChecksIff(data);
    }
  }

  /** The checks of title, type, description, course code and hashtags, each on its own. */
  lemma ScalarChecksIff(data: Json)
    ensures TitleErrors(Member(data, "title")) == [] <==> TitleAccepted(Member(data, "title"))
    ensures TypeErrors(Member(data, "resource_type")) == [] <==> TypeAccepted(Member(data, "resource_type"))
    ensures TextErrors(Member(data, "description"), 5000, DescriptionNotString, DescriptionTooLong) == []
      <==> TextAccepted(Member(data, "description"), 5000)
    ensures TextErrors(Member(data, "course_code"), 20, CourseCodeNotString, CourseCodeTooLong) == []
      <==> TextAccepted(Member(data, "course_code"), 20)
    ensures HashtagsErrors(Member(data, "hashtags")) == [] <==> TagsAccepted(Member(data, "hashtags"))
  {
    TitleIff(Member(data, "title"));
    TypeIff(Member(data, "resource_type"));
    TextIff(Member(data, "description"), 5000, DescriptionNotString, DescriptionTooLong);
    TextIff(Member(data, "course_code"), 20, CourseCodeNotString, CourseCodeTooLong);
    HashtagsIff(Member(data, "hashtags"));
  }

  lemma TitleIff(title: Json)
    ensures TitleErrors(title) == [] <==> TitleAccepted(title)
  {
  }

  lemma TypeIff(resourceType: Json)
    ensures TypeErrors(resourceType) == [] <==> TypeAccepted(resourceType)
  {
  }

  lemma TextIff(value: Json, limit: nat, notString: string, tooLong: string)
    ensures TextErrors(value, limit, notString, tooLong) == [] <==> TextAccepted(value, limit)
  {
  }

  lemma HashtagsIff(hashtags: Json)
    ensures HashtagsErrors(hashtags) == [] <==> TagsAccepted(hashtags)
  {
    if hashtags.Arr? {
      TagsAcceptedIff(hashtags.items);
    }
  }

  /** The verdict `validateCreateResource` reaches. */
  function ValidateCreateResourceSpec(data: Json): Verdict
  {
    VerdictOf(CreateErrors(data))
  }

  /** A media object whose only non-empty category is `documents` is rejected with the emptiness message. */
  lemma OnlyDocumentsRejected(data: Json, fields: map<string, Json>)
    requires Dereferenceable(data) && Member(data, "media") == Obj(fields)
    requires "files" !in fields && "images" !in fields && "videos" !in fields && "urls" !in fields
    ensures CreateErrors(data).Some? && MediaEmpty in CreateErrors(data).value
    ensures ValidateCreateResourceSpec(data).Rejected?
  {
    OnlyDocumentsMediaErrors(fields);
    var head := TitleErrors(Member(data, "title")) + TypeErrors(Member(data, "resource_type")) + [MediaEmpty];
    assert MediaEmpty in head;
    assert CreateErrors(data).value[..|head|] == head;
  }

  /** The media checks alone: only the emptiness message, and no category error. */
  lemma OnlyDocumentsMediaErrors(fields: map<string, Json>)
    requires "files" !in fields && "images" !in fields && "videos" !in fields && "urls" !in fields
    ensures MediaErrors(Obj(fields)) == Some([MediaEmpty])
  {
    var media := Obj(fields);
    assert Member(media, "files") == Undefined && Member(media, "images") == Undefined;
    assert Member(media, "videos") == Undefined && Member(media, "urls") == Undefined;
    assert !HasLength(Undefined);
    assert EmptinessErrors(media) == [MediaEmpty];
    assert CategoryErrors("images", Undefined) == Some([]);
    assert CategoryErrors("videos", Undefined) == Some([]);
    assert CategoryErrors("urls", Undefined) == Some([]);
    assert MediaErrors(media) == Some([MediaEmpty] + [] + [] + [] + []);
    assert [MediaEmpty] + [] + [] + [] + [] == [MediaEmpty];
  }

  /** The elements of `media.files` are never looked at: only whether it is a non-empty array matters. */
  lemma FilesEntriesNotInspected(data: Json, fields: map<string, Json>, xs: seq<Json>, ys: seq<Json>)
    requires data.Obj?
    requires |xs| > 0 <==> |ys| > 0
    ensures CreateErrors(Obj(data.fields["media" := Obj(fields["files" := Arr(xs)])]))
         == CreateErrors(Obj(data.fields["media" := Obj(fields["files" := Arr(ys)])]))
  {
    var m1, m2 := Obj(fields["files" := Arr(xs)]), Obj(fields["files" := Arr(ys)]);
    FilesEntriesNotInspectedByMedia(fields, xs, ys);
    var d1, d2 := Obj(data.fields["media" := m1]), Obj(data.fields["media" := m2]);
    assert Member(d1, "media") == m1 && Member(d2, "media") == m2;
    forall k | k != "media" ensures Member(d1, k) == Member(d2, k) {
      assert Member(d1, k) == Field(data.fields, k);
      assert Member(d2, k) == Field(data.fields, k);
    }
    CreateErrorsReadsMembers(d1, d2);
  }

  /** Create validation sees an object only through its members, and `media` only through its own verdict. */
  lemma CreateErrorsReadsMembers(d1: Json, d2: Json)
    requires d1.Obj? && d2.Obj?
    requires forall k :: k != "media" ==> Member(d1, k) == Member(d2, k)
    requires MediaErrors(Member(d1, "media")) == MediaErrors(Member(d2, "media"))
    ensures CreateErrors(d1) == CreateErrors(d2)
  {
    assert Member(d1, "title") == Member(d2, "title");
    assert Member(d1, "resource_type") == Member(d2, "resource_type");
    assert Member(d1, "description") == Member(d2, "description");
    assert Member(d1, "course_code") == Member(d2, "course_code");
    assert Member(d1, "hashtags") == Member(d2, "hashtags");
  }

  lemma FilesEntriesNotInspectedByMedia(fields: map<string, Json>, xs: seq<Json>, ys: seq<Json>)
    requires |xs| > 0 <==> |ys| > 0
    ensures MediaErrors(Obj(fields["files" := Arr(xs)])) == MediaErrors(Obj(fields["files" := Arr(ys)]))
  {
    var m1, m2 := Obj(fields["files" := Arr(xs)]), Obj(fields["files" := Arr(ys)]);
    forall k | k != "files" ensures Member(m1, k) == Member(m2, k) {
      assert Member(m1, k) == Field(fields, k);
      assert Member(m2, k) == Field(fields, k);
    }
    assert Member(m1, "files") == Arr(xs) && Member(m2, "files") == Arr(ys);
    assert HasLength(Arr(xs)) == HasLength(Arr(ys));
    assert EmptinessErrors(m1) == EmptinessErrors(m2);
  }

  /** At most one hashtag message is reported, whatever the hashtags. */
  lemma {:induction false} AtMostOneHashtagError(hashtags: Json)
    ensures |HashtagsErrors(hashtags)| <= 1
  {
    if hashtags.Arr? {
      AtMostOneTagError(hashtags.items);
    }
  }

  lemma {:induction false} AtMostOneTagError(tags: seq<Json>)
    ensures |TagErrors(tags)| <= 1
  {
    if tags != [] {
      AtMostOneTagError(tags[1..]);
    }
  }

  /** `resource_type` is accepted case-insensitively (ASCII). */
  lemma TypeCaseInsensitive(s: string)
    ensures TypeErrors(Str(s)) == TypeErrors(Str(Upper(s)))
    ensures UpdateTypeErrors(Str(s)) == UpdateTypeErrors(Str(Upper(s)))
  {
    assert Upper(Upper(s)) == Upper(s);
  }

  lemma {:induction false} DisallowedErrorsMembers(data: Json, fields: seq<string>, message: string)
    ensures message in DisallowedErrors(data, fields) <==>
      exists i :: 0 <= i < |fields| && HasOwn(data, fields[i]) && message == LockedFieldPrefix + fields[i]
  {
    if fields != [] {
      DisallowedErrorsMembers(data, fields[1..], message);
      if message in DisallowedErrors(data, fields[1..]) {
        var i :| 0 <= i < |fields[1..]| && HasOwn(data, fields[1..][i]) && message == LockedFieldPrefix + fields[1..][i];
        assert fields[i + 1] == fields[1..][i];
      }
      forall i | 1 <= i < |fields| && HasOwn(data, fields[i]) && message == LockedFieldPrefix + fields[i]
        ensures message in DisallowedErrors(data, fields[1..])
      {
        assert fields[1..][i - 1] == fields[i];
      }
    }
  }

  /**
   * `validateUpdateResource` reports "Cannot update field: f" for exactly the
   * protected fields f the body has as own properties, before any other message.
   */
  lemma UpdateReportsProtectedFields(data: Json, validUrl: Json -> bool, f: string)
    requires f in DisallowedFields
    requires UpdateErrors(data, validUrl).Some?
    ensures var d := DisallowedErrors(data, DisallowedFields);
      && UpdateErrors(data, validUrl).value[..|d|] == d
      && (LockedFieldPrefix + f in d <==> HasOwn(data, f))
  {
    var es := UpdateErrors(data, validUrl).value;
    var d := DisallowedErrors(data, DisallowedFields);
    assert es[..|d|] == d;
    DisallowedErrorsMembers(data, DisallowedFields, LockedFieldPrefix + f);
    if LockedFieldPrefix + f in d {
      var i :| 0 <= i < |DisallowedFields| && HasOwn(data, DisallowedFields[i])
        && LockedFieldPrefix + f == LockedFieldPrefix + DisallowedFields[i];
      assert (LockedFieldPrefix + f)[|LockedFieldPrefix|..] == f;
      assert (LockedFieldPrefix + DisallowedFields[i])[|LockedFieldPrefix|..] == DisallowedFields[i];
    }
  }

  lemma {:induction false} DisallowedErrorsNone(data: Json, fields: seq<string>)
    requires forall i :: 0 <= i < |fields| ==> !HasOwn(data, fields[i])
    ensures DisallowedErrors(data, fields) == []
  {
    if fields != [] {
      assert forall i :: 1 <= i < |fields| ==> fields[1..][i - 1] == fields[i];
      DisallowedErrorsNone(data, fields[1..]);
    }
  }

  lemma {:induction false} DisallowedErrorsFrame(d1: Json, d2: Json, fields: seq<string>)
    requires forall i :: 0 <= i < |fields| ==> HasOwn(d1, fields[i]) == HasOwn(d2, fields[i])
    ensures DisallowedErrors(d1, fields) == DisallowedErrors(d2, fields)
  {
    if fields != [] {
      assert forall i :: 1 <= i < |fields| ==> fields[1..][i - 1] == fields[i];
      DisallowedErrorsFrame(d1, d2, fields[1..]);
    }
  }

  /** A body that touches none of the checked fields passes update validation. */
  lemma UpdateWithoutCheckedFieldsPasses(fields: map<string, Json>, validUrl: Json -> bool)
    requires forall k :: k in fields ==> k !in {"id", "owner_id", "created_at", "upvote_count", "title",
      "resource_type", "file_url", "description", "course_code", "hashtags", "hasOwnProperty"}
    ensures UpdateErrors(Obj(fields), validUrl) == Some([])
  {
    DisallowedErrorsNone(Obj(fields), DisallowedFields);
    var data := Obj(fields);
    assert Member(data, "title") == Undefined && Member(data, "resource_type") == Undefined;
    assert Member(data, "file_url") == Undefined && Member(data, "description") == Undefined;
    assert Member(data, "course_code") == Undefined && Member(data, "hashtags") == Undefined;
  }

  /** Update validation reads the members it checks and the disallowed own keys. */
  lemma UpdateErrorsReadsMembers(d1: Json, d2: Json, validUrl: Json -> bool)
    requires d1.Obj? && d2.Obj?
    requires forall k :: k != "media" ==> Member(d1, k) == Member(d2, k)
    requires forall k :: k != "media" ==> HasOwn(d1, k) == HasOwn(d2, k)
    ensures UpdateErrors(d1, validUrl) == UpdateErrors(d2, validUrl)
  {
    DisallowedErrorsFrame(d1, d2, DisallowedFields);
    assert HasOwn(d1, "hasOwnProperty") == HasOwn(d2, "hasOwnProperty");
    assert Member(d1, "title") == Member(d2, "title");
    assert Member(d1, "resource_type") == Member(d2, "resource_type");
    assert Member(d1, "file_url") == Member(d2, "file_url");
    assert Member(d1, "description") == Member(d2, "description");
    assert Member(d1, "course_code") == Member(d2, "course_code");
    assert Member(d1, "hashtags") == Member(d2, "hashtags");
  }

  /** `media` is never validated on update: replacing it does not change the outcome. */
  lemma UpdateIgnoresMedia(fields: map<string, Json>, media: Json, validUrl: Json -> bool)
    ensures UpdateErrors(Obj(fields["media" := media]), validUrl) == UpdateErrors(Obj(fields), validUrl)
  {
    var d1, d2 := Obj(fields["media" := media]), Obj(fields);
    forall k | k != "media" ensures Member(d1, k) == Member(d2, k) && HasOwn(d1, k) == HasOwn(d2, k) {
      assert Member(d1, k) == Field(d1.fields, k) == Field(fields, k);
    }
    UpdateErrorsReadsMembers(d1, d2, validUrl);
  }

  /** Every check of `validateUpdateResource` holds; `validUrl` stands for the URL parser. */
  predicate UpdateAccepted(data: Json, validUrl: Json -> bool)
  {
    && Dereferenceable(data) && !HasOwn(data, "hasOwnProperty")
    && (forall i :: 0 <= i < |DisallowedFields| ==> !HasOwn(data, DisallowedFields[i]))
    && (Member(data, "title") == Undefined || TitleAccepted(Member(data, "title")))
    && (Member(data, "resource_type") == Undefined || TypeAccepted(Member(data, "resource_type")))
    && (Member(data, "file_url") == Undefined || validUrl(Member(data, "file_url")))
    && TextAccepted(Member(data, "description"), 5000)
    && TextAccepted(Member(data, "course_code"), 20)
    && TagsAccepted(Member(data, "hashtags"))
  }

  /** `validateUpdateResource` returns true exactly when every check holds. */
  lemma UpdateAcceptedIff(data: Json, validUrl: Json -> bool)
    ensures UpdateErrors(data, validUrl) == Some([]) <==> UpdateAccepted(data, validUrl)
  {
    if Dereferenceable(data) && !HasOwn(data, "hasOwnProperty") {
      DisallowedEmptyIff(data);
      ScalarChecksIff(data);
      UpdateScalarChecksIff(data);
    }
  }

  /** The update-only checks of title and type. */
  lemma UpdateScalarChecksIff(data: Json)
    ensures UpdateTitleErrors(Member(data, "title")) == [] <==>
      (Member(data, "title") == Undefined || TitleAccepted(Member(data, "title")))
    ensures UpdateTypeErrors(Member(data, "resource_type")) == Some([]) <==>
      (Member(data, "resource_type") == Undefined || TypeAccepted(Member(data, "resource_type")))
  {
    UpdateTitleIff(Member(data, "title"));
    UpdateTypeIff(Member(data, "resource_type"));
  }

  lemma UpdateTitleIff(title: Json)
    ensures UpdateTitleErrors(title) == [] <==> title == Undefined || TitleAccepted(title)
  {
  }

  lemma UpdateTypeIff(resourceType: Json)
    ensures UpdateTypeErrors(resourceType) == Some([]) <==> resourceType == Undefined || TypeAccepted(resourceType)
  {
  }

  lemma DisallowedEmptyIff(data: Json)
    ensures DisallowedErrors(data, DisallowedFields) == [] <==>
      forall i :: 0 <= i < |DisallowedFields| ==> !HasOwn(data, DisallowedFields[i])
  {
    if forall i :: 0 <= i < |DisallowedFields| ==> !HasOwn(data, DisallowedFields[i]) {
      DisallowedErrorsNone(data, DisallowedFields);
    } else {
      var i :| 0 <= i < |DisallowedFields| && HasOwn(data, DisallowedFields[i]);
      DisallowedErrorsMembers(data, DisallowedFields, LockedFieldPrefix + DisallowedFields[i]);
    }
  }
}
