/**
 * The HTTP handlers for resources: the early-return guards of each handler,
 * the 8-4-4-4-12 id check, and the multipart upload loop that fills the
 * `media` lists of a new resource. Each upload is the media host's answer for
 * that file; `JSON.parse` and the URL parser are function parameters.
 */
module ResourceController {
  import opened Wrappers
  import opened JsonValues
  import opened Text
  import opened Cloudinary
  import opened ResourceModel
  import FileService
  import ResourceValidator
  import ResourceService
  import ValidatorProperties

  // ---------------------------------------------------------------------------
  // Responses

  /** An error whose message is known, or one raised by the engine (a TypeError or SyntaxError) whose text is not modelled. */
  datatype Fault = Message(text: string) | EngineError

  datatype Payload =
    | ListBody(count: nat, filter: string, resources: seq<Resource>)
    | ResourceBody(resource: Resource)
    | SavedBody(message: string, resource: Resource)
    | MessageBody(message: string)
    | FileBody(message: string, file: UploadResult)

  /** What a handler does: answers with a status, answers with an error object, or passes the error to `next`. */
  datatype Response =
    | Sent(status: nat, payload: Payload)
    | Refused(status: nat, code: string, message: string, details: Option<Fault>)
    | Forwarded(fault: Fault)

  const InvalidUuid := Refused(400, "INVALID_UUID", "Invalid resource ID format", None)
  const NotFound := Refused(404, "RESOURCE_NOT_FOUND", "Resource not found", None)

  function AuthRequired(action: string): Response
  {
    Refused(401, "AUTHENTICATION_REQUIRED", "Authentication required to " + action, None)
  }

  function ValidationFailed(verdict: ResourceValidator.Verdict): Response
  {
    Refused(400, "VALIDATION_ERROR", "Validation failed",
      Some(if verdict.Rejected? then Message(verdict.message) else EngineError))
  }

  /** A service error the handler does not map itself goes to the error middleware. */
  function Forward<T>(out: ResourceService.Outcome<T>): Response
  {
    if out.Thrown? then Forwarded(Message(out.message)) else Forwarded(EngineError)
  }

  // ---------------------------------------------------------------------------
  // Resource ids

  predicate IsHexDigit(c: char)
  {
    ('0' <= c <= '9') || ('a' <= c <= 'f') || ('A' <= c <= 'F')
  }

  predicate AllHex(s: string)
  {
    forall i :: 0 <= i < |s| ==> IsHexDigit(s[i])
  }

  /** The positions of the four hyphens. */
  predicate IsHyphenPosition(i: int)
  {
    i == 8 || i == 13 || i == 18 || i == 23
  }

  /** The id pattern: 36 characters, hyphens at 8, 13, 18, 23, hex digits of either case elsewhere. */
  predicate IsUuid(s: string)
  {
    && |s| == 36
    && forall i :: 0 <= i < 36 ==> if IsHyphenPosition(i) then s[i] == '-' else IsHexDigit(s[i])
  }

  /** Five hex groups of 8, 4, 4, 4 and 12 digits joined by hyphens form an accepted id. */
  lemma UuidFromGroups(g1: string, g2: string, g3: string, g4: string, g5: string)
    requires |g1| == 8 && |g2| == 4 && |g3| == 4 && |g4| == 4 && |g5| == 12
    requires AllHex(g1) && AllHex(g2) && AllHex(g3) && AllHex(g4) && AllHex(g5)
    ensures IsUuid(g1 + "-" + g2 + "-" + g3 + "-" + g4 + "-" + g5)
  {
    var s := g1 + "-" + g2 + "-" + g3 + "-" + g4 + "-" + g5;
    forall i | 0 <= i < 36 ensures if IsHyphenPosition(i) then s[i] == '-' else IsHexDigit(s[i]) {
      if i < 8 { assert s[i] == g1[i]; }
      else if 8 < i < 13 { assert s[i] == g2[i - 9]; }
      else if 13 < i < 18 { assert s[i] == g3[i - 14]; }
      else if 18 < i < 23 { assert s[i] == g4[i - 19]; }
      else if 23 < i { assert s[i] == g5[i - 24]; }
    }
  }

  /** Every accepted id is such a join, of its own five groups. */
  lemma UuidIsGroups(s: string)
    requires IsUuid(s)
    ensures s == s[..8] + "-" + s[9..13] + "-" + s[14..18] + "-" + s[19..23] + "-" + s[24..]
    ensures AllHex(s[..8]) && AllHex(s[9..13]) && AllHex(s[14..18]) && AllHex(s[19..23]) && AllHex(s[24..])
  {
    assert s[8] == '-' && s[13] == '-' && s[18] == '-' && s[23] == '-';
    assert forall i :: 0 <= i < 8 ==> s[..8][i] == s[i];
    assert forall i :: 0 <= i < 4 ==> s[9..13][i] == s[9 + i] && s[14..18][i] == s[14 + i] && s[19..23][i] == s[19 + i];
    assert forall i :: 0 <= i < 12 ==> s[24..][i] == s[24 + i];
  }

  // ---------------------------------------------------------------------------
  // The multipart upload loop

  /** The four lists `createResource` fills. */
  datatype Buckets = Buckets(files: seq<Json>, images: seq<Json>, videos: seq<Json>, documents: seq<Json>)

  const NoBuckets := Buckets([], [], [], [])

  /** The entry pushed for one uploaded file. */
  function FileData(u: UploadResult): (e: Json)
    ensures e.Obj? && "caption" in e.fields && e.fields["caption"] == Null && "id" !in e.fields
  {
    Obj(map["url" := u.url, "publicId" := u.publicId, "format" := u.format, "size" := u.size, "caption" := Null])
  }

  datatype Bucket = ImageBucket | VideoBucket | DocumentBucket

  /** The list an upload goes to besides `files`, by the host-reported resource type. */
  function BucketOf(u: UploadResult): Bucket
  {
    if StrictEq(u.resourceType, Str("image")) then ImageBucket
    else if StrictEq(u.resourceType, Str("video")) then VideoBucket
    else DocumentBucket
  }

  /** One iteration: push to the category list, then to `files`. */
  function Place(b: Buckets, u: UploadResult): Buckets
  {
    var d := FileData(u);
    match BucketOf(u)
    case ImageBucket => b.(images := b.images + [d], files := b.files + [d])
    case VideoBucket => b.(videos := b.videos + [d], files := b.files + [d])
    case DocumentBucket => b.(documents := b.documents + [d], files := b.files + [d])
  }

  /** The lists after uploading `results` in order. */
  function Distribute(results: seq<UploadResult>): Buckets
  {
    if results == [] then NoBuckets
    else Place(Distribute(results[..|results| - 1]), results[|results| - 1])
  }

  /** The upload that failed first and its error message. */
  datatype UploadFailure = UploadFailure(index: nat, message: string)

  /** The uploads of the loop, stopping at the first failure. */
  function Uploaded(answers: seq<HostAnswer>): (r: Result<seq<UploadResult>, UploadFailure>)
    ensures r.Success? ==> |r.value| == |answers|
    ensures r.Failure? ==> r.error.index < |answers|
  {
    if answers == [] then Success([])
    else
      var n := |answers| - 1;
      match Uploaded(answers[..n])
      case Failure(f) => Failure(f)
      case Success(results) =>
        match FileService.UploadFile(answers[n])
        case Failure(message) => Failure(UploadFailure(n, message))
        case Success(u) => Success(results + [u])
  }

  /** The entries for a sequence of results, in order. */
  function Entries(results: seq<UploadResult>): (r: seq<Json>)
    ensures |r| == |results|
    ensures forall i :: 0 <= i < |results| ==> r[i] == FileData(results[i])
  {
    seq(|results|, i requires 0 <= i < |results| => FileData(results[i]))
  }

  /** The results that go to one bucket, in order. */
  function OfBucket(results: seq<UploadResult>, k: Bucket): (r: seq<UploadResult>)
    ensures |r| <= |results|
  {
    if results == [] then []
    else
      var n := |results| - 1;
      OfBucket(results[..n], k) + (if BucketOf(results[n]) == k then [results[n]] else [])
  }

  /**
   * Every uploaded file is in `files`, in upload order, and in exactly the
   * list its resource type picks, in upload order there too.
   */
  lemma {:induction false} DistributeContents(results: seq<UploadResult>)
    ensures var b := Distribute(results);
      && b.files == Entries(results)
      && b.images == Entries(OfBucket(results, ImageBucket))
      && b.videos == Entries(OfBucket(results, VideoBucket))
      && b.documents == Entries(OfBucket(results, DocumentBucket))
  {
    if results != [] {
      var n := |results| - 1;
      DistributeContents(results[..n]);
      EntriesAppend(results[..n], results[n]);
      EntriesAppend(OfBucket(results[..n], BucketOf(results[n])), results[n]);
      assert results == results[..n] + [results[n]];
    }
  }

  lemma EntriesAppend(results: seq<UploadResult>, u: UploadResult)
    ensures Entries(results + [u]) == Entries(results) + [FileData(u)]
  {
  }

  /** `files` holds as many entries as the three category lists together, and the same entries. */
  lemma {:induction false} DistributePartition(results: seq<UploadResult>)
    ensures var b := Distribute(results);
      && |b.files| == |results| == |b.images| + |b.videos| + |b.documents|
      && multiset(b.files) == multiset(b.images) + multiset(b.videos) + multiset(b.documents)
  {
    if results != [] {
      DistributePartition(results[..|results| - 1]);
    }
  }

  /** The loop: one upload per file, in order, aborting at the first failure. */
  method UploadFiles(answers: seq<HostAnswer>) returns (outcome: Result<Buckets, UploadFailure>, attempts: nat)
    ensures Uploaded(answers).Success? ==> outcome == Success(Distribute(Uploaded(answers).value))
    ensures Uploaded(answers).Failure? ==> outcome == Failure(Uploaded(answers).error)
    ensures attempts == if outcome.Failure? then outcome.error.index + 1 else |answers|
  {
    var media := NoBuckets;
    ghost var results: seq<UploadResult> := [];
    var i := 0;
    while i < |answers|
      invariant 0 <= i <= |answers|
      invariant Uploaded(answers[..i]) == Success(results)
      invariant media == Distribute(results)
    {
      assert answers[..i + 1][..i] == answers[..i];
      var uploaded := FileService.UploadFile(answers[i]);
      if uploaded.Failure? {
        UploadedFailureSticks(answers, i + 1);
        return Failure(UploadFailure(i, uploaded.error)), i + 1;
      }
      var u := uploaded.value;
      var fileData := FileData(u);
      if StrictEq(u.resourceType, Str("image")) {
        media := media.(images := media.images + [fileData]);
      } else if StrictEq(u.resourceType, Str("video")) {
        media := media.(videos := media.videos + [fileData]);
      } else {
        media := media.(documents := media.documents + [fileData]);
      }
      media := media.(files := media.files + [fileData]);
      assert (results + [u])[..|results|] == results;
      results := results + [u];
      i := i + 1;
    }
    assert answers[..i] == answers;
    return Success(media), |answers|;
  }

  /** Once an upload fails, the outcome of the whole loop is that failure. */
  lemma {:induction false} UploadedFailureSticks(answers: seq<HostAnswer>, n: nat)
    requires 0 < n <= |answers|
    requires Uploaded(answers[..n]).Failure?
    ensures Uploaded(answers) == Uploaded(answers[..n])
    decreases |answers| - n
  {
    if n < |answers| {
      assert answers[..n + 1][..n] == answers[..n];
      UploadedFailureSticks(answers, n + 1);
    } else {
      assert answers[..n] == answers;
    }
  }

  /** The failure reported is the first failing upload, after every earlier one succeeded. */
  lemma {:induction false} UploadedFailureIsFirst(answers: seq<HostAnswer>)
    requires Uploaded(answers).Failure?
    ensures var f := Uploaded(answers).error;
      && FileService.UploadFile(answers[f.index]) == Result<UploadResult, string>.Failure(f.message)
      && forall j :: 0 <= j < f.index ==> FileService.UploadFile(answers[j]).Success?
  {
    var n := |answers| - 1;
    assert answers[..n] + [answers[n]] == answers;
    if Uploaded(answers[..n]).Failure? {
      UploadedFailureIsFirst(answers[..n]);
      var f := Uploaded(answers).error;
      assert forall j :: 0 <= j <= f.index ==> answers[..n][j] == answers[j];
    } else {
      AllUploadsSucceeded(answers[..n]);
      assert forall j :: 0 <= j < n ==> answers[..n][j] == answers[j];
    }
  }

  /** When the loop succeeds on a prefix, every upload in it succeeded. */
  lemma {:induction false} AllUploadsSucceeded(answers: seq<HostAnswer>)
    requires Uploaded(answers).Success?
    ensures forall j :: 0 <= j < |answers| ==> FileService.UploadFile(answers[j]).Success?
  {
    if answers != [] {
      var n := |answers| - 1;
      AllUploadsSucceeded(answers[..n]);
      assert forall j :: 0 <= j < n ==> answers[..n][j] == answers[j];
    }
  }

  /** `media` as the resource data of a multipart request carries it. */
  function MediaJson(b: Buckets): Json
  {
    Obj(map["files" := Arr(b.files), "images" := Arr(b.images), "videos" := Arr(b.videos), "documents" := Arr(b.documents)])
  }

  /** The resource data of a multipart request: form fields, a forced type, the uploaded media and parsed hashtags. */
  function FormData(body: Json, b: Buckets, hashtags: Json): (r: Json)
    requires Dereferenceable(body)
    ensures r.Obj? && "resource_type" in r.fields && "media" in r.fields
    ensures r.fields["resource_type"] == Str("DOCUMENT") && r.fields["media"] == MediaJson(b)
  {
    Obj(map[
      "title" := Member(body, "title"),
      "description" := Member(body, "description"),
      "course_code" := Member(body, "course_code"),
      "resource_type" := Str("DOCUMENT"),
      "media" := MediaJson(b),
      "hashtags" := hashtags
    ])
  }

  /** `req.body.hashtags ? JSON.parse(req.body.hashtags) : []`, `None` when parsing throws. */
  function ParsedHashtags(body: Json, parse: Json -> Option<Json>): Option<Json>
    requires Dereferenceable(body)
  {
    if Truthy(Member(body, "hashtags")) then parse(Member(body, "hashtags")) else Some(Arr([]))
  }

  /**
   * The resource data `createResource` validates: the body of a JSON request,
   * or for a multipart request the form built after every upload succeeded;
   * otherwise the response the handler gives instead.
   */
  function RequestData(body: Json, files: seq<HostAnswer>, parse: Json -> Option<Json>): Result<Json, Response>
  {
    if files == [] then Success(body)
    else match Uploaded(files)
      case Failure(f) => Failure(Refused(500, "FILE_UPLOAD_FAILED", "Failed to upload files", Some(Message(f.message))))
      case Success(results) =>
        if !Dereferenceable(body) then Failure(Forwarded(EngineError))
        else match ParsedHashtags(body, parse)
          case None => Failure(Forwarded(EngineError))
          case Some(hashtags) => Success(FormData(body, Distribute(results), hashtags))
  }

  /** The multipart branch of `createResource`: upload every file, then build the resource data. */
  method PrepareMultipart(body: Json, files: seq<HostAnswer>, parse: Json -> Option<Json>)
    returns (prepared: Result<Json, Response>, attempts: nat)
    requires files != []
    ensures prepared == RequestData(body, files, parse)
    ensures attempts == if Uploaded(files).Failure? then Uploaded(files).error.index + 1 else |files|
  {
    var uploaded;
    uploaded, attempts := UploadFiles(files);
    if uploaded.Failure? {
      return Failure(Refused(500, "FILE_UPLOAD_FAILED", "Failed to upload files", Some(Message(uploaded.error.message)))), attempts;
    }
    if !Dereferenceable(body) {
      return Failure(Forwarded(EngineError)), attempts;
    }
    var hashtags := Arr([]);
    if Truthy(Member(body, "hashtags")) {
      var parsed := parse(Member(body, "hashtags"));
      if parsed.None? {
        return Failure(Forwarded(EngineError)), attempts;
      }
      hashtags := parsed.value;
    }
    return Success(FormData(body, uploaded.value, hashtags)), attempts;
  }

  /** A multipart request always carries the forced type `DOCUMENT`, and every uploaded file in `media.files`. */
  lemma MultipartShape(body: Json, files: seq<HostAnswer>, parse: Json -> Option<Json>)
    requires files != [] && RequestData(body, files, parse).Success?
    ensures var data := RequestData(body, files, parse).value;
      && Uploaded(files).Success?
      && data.Obj? && "resource_type" in data.fields && "media" in data.fields
      && data.fields["resource_type"] == Str("DOCUMENT")
      && data.fields["media"] == MediaJson(Distribute(Uploaded(files).value))
  {
    var results := Uploaded(files).value;
    var hashtags := ParsedHashtags(body, parse).value;
    var data := FormData(body, Distribute(results), hashtags);
    assert RequestData(body, files, parse).value == data;
  }

  // ---------------------------------------------------------------------------
  // Handlers

  /** A rethrown database error never reads as the service's ownership refusal. */
  lemma FailureIsNotForbidden(message: string)
    requires ResourceService.FailurePrefix <= message
    ensures message != ResourceService.Forbidden
  {
    assert message[1] != ResourceService.Forbidden[1];
  }

  /** A rethrown database error never reads as the service's sign-in demand. */
  lemma FailureIsNotAuthDemand(message: string)
    requires ResourceService.FailurePrefix <= message
    ensures message != ResourceService.AuthRequiredMessage
  {
    assert message[1] != ResourceService.AuthRequiredMessage[1];
  }

  /** Asking for one's own resources without being signed in. */
  predicate OwnScopeWithoutCaller(f: ResourceService.Filters)
  {
    ResourceService.Given(f.scope) && f.scope.value == "my" && !Truthy(f.caller)
  }

  /** Asking for followed authors' resources while following nobody. */
  predicate FollowingNobody(f: ResourceService.Filters, following: seq<Json>)
  {
    ResourceService.Given(f.scope) && f.scope.value == "following" && following == []
  }

  /** `getAllResources`: the service's authentication error becomes a 401, any other error goes to `next`. */
  method ListResources(table: seq<Row>, f: ResourceService.Filters, following: seq<Json>, fault: Option<string>)
    returns (response: Response)
    ensures OwnScopeWithoutCaller(f) ==>
      response == Refused(401, "AUTHENTICATION_REQUIRED", ResourceService.AuthRequiredMessage, None)
    ensures FollowingNobody(f, following) ==> response == Sent(200, ListBody(0, "following", []))
    ensures !OwnScopeWithoutCaller(f) && !FollowingNobody(f, following) && fault.Some? ==>
      response == Forwarded(Message(ResourceService.FetchAllFailed + fault.value))
    ensures !OwnScopeWithoutCaller(f) && !FollowingNobody(f, following) && fault.None? ==>
      var selected := ResourceService.SortByNewest(ResourceService.Select(table, ResourceService.Conditions(f, following)));
      response == Sent(200, ListBody(|selected|, ResourceService.Echo(f.scope), ResourceService.Resources(selected)))
  {
    var out := ResourceService.GetAllResources(table, f, following, fault);
    if fault.Some? {
      FailureIsNotAuthDemand(ResourceService.FetchAllFailed + fault.value);
    }
    if out.Done? {
      return Sent(200, ListBody(out.value.count, out.value.filter, out.value.resources));
    }
    if out.Thrown? && out.message == ResourceService.AuthRequiredMessage {
      return Refused(401, "AUTHENTICATION_REQUIRED", out.message, None);
    }
    return Forward(out);
  }

  /** `getResourceById`: the id is checked before the store is read. */
  method GetResourceById(store: ResourceService.Store, id: string, owner: Json, fault: Option<string>)
    returns (response: Response)
    requires store.Valid()
    ensures !IsUuid(id) ==> response == InvalidUuid
    ensures IsUuid(id) ==>
      var out := store.GetResourceById(id, owner, fault);
      && (out.NoRecord? ==> response == NotFound)
      && (out.Done? ==> response == Sent(200, ResourceBody(out.value)))
      && (out.Thrown? ==> response == Forwarded(Message(out.message)))
    ensures response.Sent? <==> IsUuid(id) && fault.None? && id in store.rows
  {
    if !IsUuid(id) {
      return InvalidUuid;
    }
    var out := store.GetResourceById(id, owner, fault);
    if out.NoRecord? {
      return NotFound;
    }
    if out.Done? {
      return Sent(200, ResourceBody(out.value));
    }
    return Forward(out);
  }

  /**
   * `createResource`. `files` holds the host's answers for the uploaded
   * files (empty for a JSON request), `parse` stands for `JSON.parse` of the
   * hashtags field (`None` when it throws), and `attempts` counts uploads made.
   */
  method CreateResource(store: ResourceService.Store, caller: Json, body: Json, files: seq<HostAnswer>,
                        parse: Json -> Option<Json>, newId: string, now: Json, owner: Json, fault: Option<string>)
    returns (response: Response, attempts: nat)
    requires newId !in store.rows && store.Valid()
    modifies store
    ensures store.Valid()
    ensures !Truthy(caller) ==> response == AuthRequired("create resource") && attempts == 0
    ensures Truthy(caller) ==> attempts == if Uploaded(files).Failure? then Uploaded(files).error.index + 1 else |files|
    ensures Truthy(caller) && RequestData(body, files, parse).Failure? ==> response == RequestData(body, files, parse).error
    ensures Truthy(caller) && RequestData(body, files, parse).Success? ==>
      var data := RequestData(body, files, parse).value;
      && (ResourceValidator.CreateErrors(data) != Some([]) ==>
            response == ValidationFailed(ResourceValidator.VerdictOf(ResourceValidator.CreateErrors(data))))
      && (ResourceValidator.CreateErrors(data) == Some([]) && fault.Some? ==>
            response == Forwarded(Message(ResourceService.CreateFailed + fault.value)))
      && (ResourceValidator.CreateErrors(data) == Some([]) && fault.None? ==>
            ResourceService.InsertData(data, caller).Some?
            && var row := ResourceService.Stored(ResourceService.InsertData(data, caller).value, newId, now);
            && response == Sent(201, SavedBody("Resource created successfully", FromDatabase(row["owner" := owner])))
            && store.rows == old(store.rows)[newId := row])
    ensures !response.Sent? ==> store.rows == old(store.rows)
  {
    if !Truthy(caller) {
      return AuthRequired("create resource"), 0;
    }
    var resourceData := body;
    attempts := 0;
    if |files| > 0 {
      var prepared;
      prepared, attempts := PrepareMultipart(body, files, parse);
      if prepared.Failure? {
        return prepared.error, attempts;
      }
      resourceData := prepared.value;
    } else {
      assert Uploaded(files) == Success([]);
    }
    var verdict := ResourceValidator.ValidateCreateResource(resourceData);
    if verdict != ResourceValidator.Passed {
      return ValidationFailed(verdict), attempts;
    }
    ResourceService.PassedCreateInserts(resourceData, caller);
    var out := store.CreateResource(resourceData, caller, newId, now, owner, fault);
    if out.Done? {
      return Sent(201, SavedBody("Resource created successfully", out.value)), attempts;
    }
    return Forward(out), attempts;
  }

  /** `!resourceData || Object.keys(resourceData).length === 0`. */
  predicate EmptyBody(body: Json)
  {
    !Truthy(body) || KeyCount(body) == 0
  }

  /** A request that passes every check `updateResource` makes before calling the service. */
  predicate UpdateAdmitted(id: string, caller: Json, body: Json, validUrl: Json -> bool)
  {
    IsUuid(id) && Truthy(caller) && !EmptyBody(body) && ResourceValidator.UpdateErrors(body, validUrl) == Some([])
  }

  /** The checks `updateResource` makes before validating the body, in order; `None` lets the request through. */
  function UpdateRefusal(id: string, caller: Json, body: Json): (r: Option<Response>)
    ensures r.None? <==> IsUuid(id) && Truthy(caller) && !EmptyBody(body)
    ensures r.Some? ==> r.value.Refused? && (r.value.status == 401 <==> IsUuid(id) && !Truthy(caller))
    ensures r.Some? && r.value.code == "INVALID_UUID" <==> !IsUuid(id)
    ensures r.Some? && r.value.code == "EMPTY_REQUEST_BODY" <==> IsUuid(id) && Truthy(caller) && EmptyBody(body)
  {
    if !IsUuid(id) then Some(InvalidUuid)
    else if !Truthy(caller) then Some(AuthRequired("update resource"))
    else if EmptyBody(body) then Some(Refused(400, "EMPTY_REQUEST_BODY", "No data provided for update", None))
    else None
  }

  /**
   * The service half of `updateResource`, for a request that passed the
   * checks: not-found and forbidden become responses, and a validated body
   * never makes the service throw a TypeError.
   */
  method SubmitUpdate(store: ResourceService.Store, id: string, caller: Json, body: Json, validUrl: Json -> bool,
                      owner: Json, checkFault: Option<string>, writeFault: Option<string>)
    returns (response: Response)
    requires store.Valid() && UpdateAdmitted(id, caller, body, validUrl)
    modifies store
    ensures store.Valid()
    ensures checkFault.Some? ==> response == Forwarded(Message(ResourceService.CheckFailed + checkFault.value))
    ensures checkFault.None? && id !in old(store.rows) ==> response == NotFound
    ensures (checkFault.None? && id in old(store.rows) && !ResourceService.Owns(old(store.rows)[id], caller)) ==>
      response == Refused(403, "FORBIDDEN", "You do not have permission to update this resource", None)
    ensures response != Forwarded(EngineError)
    ensures !response.Sent? ==> store.rows == old(store.rows)
    ensures response.Sent? <==> (checkFault.None? && id in old(store.rows) && ResourceService.Owns(old(store.rows)[id], caller) && writeFault.None?)
    ensures response.Sent? ==>
      && id in old(store.rows) && ResourceService.UpdatePatch(body).Some?
      && var row := ResourceService.Apply(old(store.rows)[id], ResourceService.UpdatePatch(body).value);
      && store.rows == old(store.rows)[id := row]
      && response == Sent(200, SavedBody("Resource updated successfully", FromDatabase(row["owner" := owner])))
  {
    ResourceService.PassedUpdatePatches(body, validUrl);
    var out := store.UpdateResource(id, body, caller, owner, checkFault, writeFault);
    if checkFault.Some? {
      FailureIsNotForbidden(ResourceService.CheckFailed + checkFault.value);
    }
    if writeFault.Some? {
      FailureIsNotForbidden(ResourceService.UpdateFailed + writeFault.value);
    }
    if out.NoRecord? {
      return NotFound;
    }
    if out.Thrown? && out.message == ResourceService.Forbidden {
      return Refused(403, "FORBIDDEN", "You do not have permission to update this resource", None);
    }
    if out.Done? {
      return Sent(200, SavedBody("Resource updated successfully", out.value));
    }
    return Forward(out);
  }

  /** `updateResource`: the checks, then validation, then the service; nothing changes unless the answer is 200. */
  method UpdateResource(store: ResourceService.Store, id: string, caller: Json, body: Json, validUrl: Json -> bool,
                        owner: Json, checkFault: Option<string>, writeFault: Option<string>)
    returns (response: Response)
    requires store.Valid()
    modifies store
    ensures store.Valid()
    ensures UpdateRefusal(id, caller, body).Some? ==> response == UpdateRefusal(id, caller, body).value
    ensures (UpdateRefusal(id, caller, body).None? && ResourceValidator.UpdateErrors(body, validUrl) != Some([])) ==>
      response == ValidationFailed(ResourceValidator.VerdictOf(ResourceValidator.UpdateErrors(body, validUrl)))
    ensures UpdateAdmitted(id, caller, body, validUrl) && checkFault.Some? ==>
      response == Forwarded(Message(ResourceService.CheckFailed + checkFault.value))
    ensures UpdateAdmitted(id, caller, body, validUrl) && checkFault.None? && id !in old(store.rows) ==> response == NotFound
    ensures (UpdateAdmitted(id, caller, body, validUrl) && checkFault.None? && id in old(store.rows)
             && !ResourceService.Owns(old(store.rows)[id], caller)) ==>
      response == Refused(403, "FORBIDDEN", "You do not have permission to update this resource", None)
    ensures response.Sent? <==> (UpdateAdmitted(id, caller, body, validUrl) && checkFault.None? && id in old(store.rows) && ResourceService.Owns(old(store.rows)[id], caller) && writeFault.None?)
    ensures !response.Sent? ==> store.rows == old(store.rows)
    ensures response.Sent? ==>
      && id in old(store.rows) && ResourceService.UpdatePatch(body).Some?
      && var row := ResourceService.Apply(old(store.rows)[id], ResourceService.UpdatePatch(body).value);
      && store.rows == old(store.rows)[id := row]
      && response == Sent(200, SavedBody("Resource updated successfully", FromDatabase(row["owner" := owner])))
  {
    var refusal := UpdateRefusal(id, caller, body);
    if refusal.Some? {
      return refusal.value;
    }
    var verdict := ResourceValidator.ValidateUpdateResource(body, validUrl);
    if verdict != ResourceValidator.Passed {
      return ValidationFailed(verdict);
    }
    assert UpdateAdmitted(id, caller, body, validUrl);
    response := SubmitUpdate(store, id, caller, body, validUrl, owner, checkFault, writeFault);
  }

  /** `deleteResource`: id format, then caller, then not-found and forbidden. */
  method DeleteResource(store: ResourceService.Store, id: string, caller: Json,
                        checkFault: Option<string>, deleteFault: Option<string>)
    returns (response: Response)
    requires store.Valid()
    modifies store
    ensures store.Valid()
    ensures !IsUuid(id) ==> response == InvalidUuid
    ensures IsUuid(id) && !Truthy(caller) ==> response == AuthRequired("delete resource")
    ensures IsUuid(id) && Truthy(caller) && checkFault.Some? ==>
      response == Forwarded(Message(ResourceService.CheckFailed + checkFault.value))
    ensures IsUuid(id) && Truthy(caller) && checkFault.None? && id !in old(store.rows) ==> response == NotFound
    ensures (IsUuid(id) && Truthy(caller) && checkFault.None? && id in old(store.rows)
             && !ResourceService.Owns(old(store.rows)[id], caller)) ==>
      response == Refused(403, "FORBIDDEN", "You do not have permission to delete this resource", None)
    ensures !response.Sent? ==> store.rows == old(store.rows)
    ensures response.Sent? <==> (IsUuid(id) && Truthy(caller) && checkFault.None? && id in old(store.rows) && ResourceService.Owns(old(store.rows)[id], caller) && deleteFault.None?)
    ensures response.Sent? ==>
      response == Sent(200, MessageBody("Resource deleted successfully")) && store.rows == old(store.rows) - {id}
  {
    if !IsUuid(id) {
      return InvalidUuid;
    }
    if !Truthy(caller) {
      return AuthRequired("delete resource");
    }
    var out := store.DeleteResource(id, caller, checkFault, deleteFault);
    if checkFault.Some? {
      FailureIsNotForbidden(ResourceService.CheckFailed + checkFault.value);
    }
    if deleteFault.Some? {
      FailureIsNotForbidden(ResourceService.DeleteFailed + deleteFault.value);
    }
    if out.NoRecord? {
      return NotFound;
    }
    if out.Thrown? && out.message == ResourceService.Forbidden {
      return Refused(403, "FORBIDDEN", "You do not have permission to delete this resource", None);
    }
    if out.Done? {
      return Sent(200, MessageBody("Resource deleted successfully"));
    }
    return Forward(out);
  }

  /** `uploadFile`: caller, then a file, then the upload. */
  method UploadFile(caller: Json, file: Option<HostAnswer>) returns (response: Response)
    ensures !Truthy(caller) ==> response == AuthRequired("upload file")
    ensures Truthy(caller) && file.None? ==> response == Refused(400, "NO_FILE_PROVIDED", "No file uploaded", None)
    ensures Truthy(caller) && file.Some? ==>
      match FileService.UploadFile(file.value)
      case Success(u) => response == Sent(200, FileBody("File uploaded successfully", u))
      case Failure(m) => response == Refused(500, "FILE_UPLOAD_FAILED", "Failed to upload file", Some(Message(m)))
  {
    if !Truthy(caller) {
      return AuthRequired("upload file");
    }
    if file.None? {
      return Refused(400, "NO_FILE_PROVIDED", "No file uploaded", None);
    }
    var uploaded := FileService.UploadFile(file.value);
    if uploaded.Failure? {
      return Refused(500, "FILE_UPLOAD_FAILED", "Failed to upload file", Some(Message(uploaded.error)));
    }
    return Sent(200, FileBody("File uploaded successfully", uploaded.value));
  }
}
