/**
 * The resource service over an abstract `resources` table: shaping of the
 * inserted and patched records, the not-found-then-forbidden checks of update
 * and delete, and the filters and ordering of the listing. Database failures
 * are parameters (`Some(message)` when the call reports an error); the
 * `owner` join is the `owner` parameter or a column of the listed rows.
 */
module ResourceService {
  import opened Wrappers
  import opened JsonValues
  import opened Text
  import opened ResourceModel
  import ValidatorProperties
  import ResourceValidator

  /** How a service call ends: a value, `null`, an `Error` with a message, or a TypeError. */
  datatype Outcome<+T> = Done(value: T) | NoRecord | Thrown(message: string) | TypeFault

  const Forbidden := "FORBIDDEN"
  const AuthRequiredMessage := "Authentication" + " required to view your resources"
  /** Every database error is rethrown with a message that starts with this. */
  const FailurePrefix := "Failed to "
  const CreateFailed := FailurePrefix + "create resource: "
  const CheckFailed := FailurePrefix + "check resource existence: "
  const UpdateFailed := FailurePrefix + "update resource: "
  const DeleteFailed := FailurePrefix + "delete resource: "
  const FetchOneFailed := FailurePrefix + "fetch resource: "
  const FetchAllFailed := FailurePrefix + "fetch resources: "

  // ---------------------------------------------------------------------------
  // Record shaping

  /** `v?.trim() || null`; `None` when `trim` is not a function of `v`. */
  function TrimOrNull(v: Json): (r: Option<Json>)
    ensures r.None? <==> !(v.Undefined? || v.Null? || v.Str?)
    ensures r == Some(Null) <==>
      v.Undefined? || v.Null? || (v.Str? && forall i :: 0 <= i < |v.s| ==> IsJsWhitespace(v.s[i]))
    ensures r.Some? && r.value != Null ==> v.Str? && r.value == Str(Trim(v.s)) && |Trim(v.s)| > 0
  {
    match v
    case Undefined => Some(Null)
    case Null => Some(Null)
    case Str(s) => if Trim(s) == [] then Some(Null) else Some(Str(Trim(s)))
    case _ => None
  }

  /** The keys of `insertData`. */
  const InsertKeys: set<string> := {
    "owner_id", "title", "description", "course_code", "resource_type", "media", "hashtags", "upvote_count"
  }

  /** `insertData` of `createResource`; `None` when building it throws a TypeError. */
  function InsertData(data: Json, caller: Json): (r: Option<Row>)
    ensures r.Some? <==>
      && Dereferenceable(data)
      && Member(data, "title").Str? && Member(data, "resource_type").Str?
      && TrimOrNull(Member(data, "description")).Some? && TrimOrNull(Member(data, "course_code")).Some?
  {
    if !Dereferenceable(data) then None
    else
      var title, resourceType := Member(data, "title"), Member(data, "resource_type");
      var description := TrimOrNull(Member(data, "description"));
      var courseCode := TrimOrNull(Member(data, "course_code"));
      if !title.Str? || description.None? || courseCode.None? || !resourceType.Str? then None
      else Some(InsertRow(caller, Str(Trim(title.s)), description.value, courseCode.value,
                          Str(Upper(resourceType.s)), Member(data, "media"), Or(Member(data, "hashtags"), Arr([]))))
  }

  /** The object literal of `insertData`, given its shaped values. */
  function InsertRow(owner: Json, title: Json, description: Json, courseCode: Json, resourceType: Json,
                     media: Json, hashtags: Json): Row
  {
    map[
      "owner_id" := owner,
      "title" := title,
      "description" := description,
      "course_code" := courseCode,
      "resource_type" := resourceType,
      "media" := media,
      "hashtags" := hashtags,
      "upvote_count" := Num(0)
    ]
  }

  /** The row the database stores for an insert: the shaped data plus the generated `id` and `created_at`. */
  function Stored(insert: Row, id: string, now: Json): (r: Row)
    ensures Field(r, "id") == Str(id)
  {
    insert["id" := Str(id)]["created_at" := now]
  }

  /** The keys `updateResource` may write. */
  const UpdatableKeys: set<string> := {"title", "description", "course_code", "resource_type", "media", "hashtags"}

  /** `updateData`: for each updatable column, the value to write or `None` when the key is not assigned. */
  datatype Patch = Patch(
    title: Option<Json>,
    description: Option<Json>,
    courseCode: Option<Json>,
    resourceType: Option<Json>,
    media: Option<Json>,
    hashtags: Option<Json>)

  const NoChanges := Patch(None, None, None, None, None, None)

  /** Building `updateData` throws a TypeError: a truthy non-string `title` or `resource_type`, or a `description` or `course_code` with no `trim`. */
  predicate PatchThrows(data: Json)
  {
    || !Dereferenceable(data)
    || (Truthy(Member(data, "title")) && !Member(data, "title").Str?)
    || (Member(data, "description") != Undefined && TrimOrNull(Member(data, "description")).None?)
    || (Member(data, "course_code") != Undefined && TrimOrNull(Member(data, "course_code")).None?)
    || (Truthy(Member(data, "resource_type")) && !Member(data, "resource_type").Str?)
  }

  /** `v` when `write` holds, else `None`. */
  function When(write: bool, v: Json): (r: Option<Json>)
    ensures r.Some? <==> write
    ensures r.Some? ==> r.value == v
  {
    if write then Some(v) else None
  }

  /**
   * `updateData` of `updateResource`; `None` when building it throws a
   * TypeError. `title` and `resource_type` are written when truthy (trimmed,
   * upper-cased), `media` when truthy, and `description`, `course_code` and
   * `hashtags` whenever they are not `undefined`.
   */
  function UpdatePatch(data: Json): (r: Option<Patch>)
    ensures r.None? <==> PatchThrows(data)
  {
    if PatchThrows(data) then None
    else
      var title, description := Member(data, "title"), Member(data, "description");
      var courseCode, resourceType := Member(data, "course_code"), Member(data, "resource_type");
      var media, hashtags := Member(data, "media"), Member(data, "hashtags");
      Some(Patch(
        When(Truthy(title), if title.Str? then Str(Trim(title.s)) else title),
        if description != Undefined then TrimOrNull(description) else None,
        if courseCode != Undefined then TrimOrNull(courseCode) else None,
        When(Truthy(resourceType), if resourceType.Str? then Str(Upper(resourceType.s)) else resourceType),
        When(Truthy(media), media),
        When(hashtags != Undefined, hashtags)))
  }

  /** The conditional assignments of `updateResource`, in source order. */
  method BuildUpdateData(data: Json) returns (patch: Option<Patch>)
    ensures patch == UpdatePatch(data)
  {
    if !Dereferenceable(data) {
      return None;
    }
    var updateData := NoChanges;
    var title := Member(data, "title");
    if Truthy(title) {
      if !title.Str? {
        return None;
      }
      updateData := updateData.(title := Some(Str(Trim(title.s))));
    }
    var description := Member(data, "description");
    if description != Undefined {
      var t := TrimOrNull(description);
      if t.None? {
        return None;
      }
      updateData := updateData.(description := t);
    }
    var courseCode := Member(data, "course_code");
    if courseCode != Undefined {
      var t := TrimOrNull(courseCode);
      if t.None? {
        return None;
      }
      updateData := updateData.(courseCode := t);
    }
    var resourceType := Member(data, "resource_type");
    if Truthy(resourceType) {
      if !resourceType.Str? {
        return None;
      }
      updateData := updateData.(resourceType := Some(Str(Upper(resourceType.s))));
    }
    var media := Member(data, "media");
    if Truthy(media) {
      updateData := updateData.(media := Some(media));
    }
    var hashtags := Member(data, "hashtags");
    if hashtags != Undefined {
      updateData := updateData.(hashtags := Some(hashtags));
    }
    return Some(updateData);
  }

  /** One column written by the update, or left as it was. */
  function Put(row: Row, key: string, v: Option<Json>): (r: Row)
    ensures forall k {:trigger Field(r, k)} :: Field(r, k) == if k == key && v.Some? then v.value else Field(row, k)
  {
    if v.Some? then row[key := v.value] else row
  }

  /** The row after `.update(updateData)`: the written columns take their new values, every other column keeps its own. */
  function Apply(row: Row, p: Patch): (r: Row)
    ensures forall k :: k !in UpdatableKeys ==> Field(r, k) == Field(row, k)
  {
    Put(Put(Put(Put(Put(Put(row, "title", p.title), "description", p.description), "course_code", p.courseCode),
      "resource_type", p.resourceType), "media", p.media), "hashtags", p.hashtags)
  }

  /** An update never changes a row's `id` or `owner_id`. */
  lemma ApplyKeepsIdentity(row: Row, p: Patch)
    ensures Field(Apply(row, p), "id") == Field(row, "id")
    ensures Field(Apply(row, p), "owner_id") == Field(row, "owner_id")
  {
    assert "id" !in UpdatableKeys && "owner_id" !in UpdatableKeys;
  }

  /** The text columns after an update. */
  lemma ApplyWritesTexts(row: Row, p: Patch)
    ensures Field(Apply(row, p), "title") == if p.title.Some? then p.title.value else Field(row, "title")
    ensures Field(Apply(row, p), "description") == if p.description.Some? then p.description.value else Field(row, "description")
    ensures Field(Apply(row, p), "course_code") == if p.courseCode.Some? then p.courseCode.value else Field(row, "course_code")
  {
  }

  /** The other written columns after an update. */
  lemma ApplyWritesOthers(row: Row, p: Patch)
    ensures Field(Apply(row, p), "resource_type") == if p.resourceType.Some? then p.resourceType.value else Field(row, "resource_type")
    ensures Field(Apply(row, p), "media") == if p.media.Some? then p.media.value else Field(row, "media")
    ensures Field(Apply(row, p), "hashtags") == if p.hashtags.Some? then p.hashtags.value else Field(row, "hashtags")
  {
  }

  // ---------------------------------------------------------------------------
  // The store

  /** `existingResource.owner_id === currentUserId`. */
  predicate Owns(row: Row, caller: Json)
  {
    StrictEq(Field(row, "owner_id"), caller)
  }

  /** The `resources` table, keyed by id. */
  class Store {
    var rows: map<string, Row>

    /** Every row is stored under its own `id`. */
    predicate Valid()
      reads this
    {
      forall id :: id in rows ==> Field(rows[id], "id") == Str(id)
    }

    constructor (initial: map<string, Row>)
      requires forall id :: id in initial ==> Field(initial[id], "id") == Str(id)
      ensures rows == initial && Valid()
    {
      rows := initial;
    }

    /** `getResourceById`: the row with that id, joined with its `owner`, or `null`. */
    function GetResourceById(id: string, owner: Json, fault: Option<string>): (r: Outcome<Resource>)
      requires Valid()
      reads this
      ensures fault.Some? ==> r == Thrown(FetchOneFailed + fault.value)
      ensures fault.None? && id !in rows ==> r == NoRecord
      ensures fault.None? && id in rows ==> r == Done(FromDatabase(rows[id]["owner" := owner]))
      ensures r.Done? ==> r.value.id == Str(id) && r.value.owner == owner
    {
      if fault.Some? then Thrown(FetchOneFailed + fault.value)
      else if id !in rows then NoRecord
      else Done(FromDatabase(rows[id]["owner" := owner]))
    }

    /**
     * `createResource`: inserts the shaped record under the id and timestamp the
     * database generates (`newId`, `now`) and returns it read back with `owner`.
     */
    method CreateResource(data: Json, caller: Json, newId: string, now: Json, owner: Json, fault: Option<string>)
      returns (out: Outcome<Resource>)
      requires newId !in rows
      requires Valid()
      modifies this
      ensures Valid()
      ensures InsertData(data, caller).None? ==> out == TypeFault && rows == old(rows)
      ensures InsertData(data, caller).Some? && fault.Some? ==>
        out == Thrown(CreateFailed + fault.value) && rows == old(rows)
      ensures InsertData(data, caller).Some? && fault.None? ==>
        var row := Stored(InsertData(data, caller).value, newId, now);
        && rows == old(rows)[newId := row]
        && out == Done(FromDatabase(row["owner" := owner]))
    {
      var insert := InsertData(data, caller);
      if insert.None? {
        out := TypeFault;
      } else {
        out := Insert(insert.value, newId, now, owner, fault);
      }
    }

    /** The `insert` call of `createResource`, given the shaped record. */
    method Insert(insert: Row, newId: string, now: Json, owner: Json, fault: Option<string>)
      returns (out: Outcome<Resource>)
      requires newId !in rows
      requires Valid()
      modifies this
      ensures Valid()
      ensures fault.Some? ==> out == Thrown(CreateFailed + fault.value) && rows == old(rows)
      ensures fault.None? ==>
        var row := Stored(insert, newId, now);
        && rows == old(rows)[newId := row]
        && out == Done(FromDatabase(row["owner" := owner]))
    {
      if fault.Some? {
        out := Thrown(CreateFailed + fault.value);
      } else {
        var row := Stored(insert, newId, now);
        rows := rows[newId := row];
        out := Done(FromDatabase(row["owner" := owner]));
      }
    }

    /**
     * `updateResource`: `null` for a missing row and FORBIDDEN for another
     * owner's row, both before anything is written; otherwise the patch is
     * merged into the row and the merged row is returned.
     */
    method UpdateResource(id: string, data: Json, caller: Json, owner: Json,
                          checkFault: Option<string>, writeFault: Option<string>)
      returns (out: Outcome<Resource>)
      requires Valid()
      modifies this
      ensures Valid()
      ensures out.Done? <==>
        (checkFault.None? && id in old(rows) && Owns(old(rows)[id], caller) && UpdatePatch(data).Some? && writeFault.None?)
      ensures !out.Done? ==> rows == old(rows)
      ensures checkFault.Some? ==> out == Thrown(CheckFailed + checkFault.value)
      ensures checkFault.None? && id !in old(rows) ==> out == NoRecord
      ensures checkFault.None? && id in old(rows) && !Owns(old(rows)[id], caller) ==> out == Thrown(Forbidden)
      ensures checkFault.None? && id in old(rows) && Owns(old(rows)[id], caller) && UpdatePatch(data).None? ==>
        out == TypeFault
      ensures (checkFault.None? && id in old(rows) && Owns(old(rows)[id], caller) && UpdatePatch(data).Some? && writeFault.Some?) ==>
        out == Thrown(UpdateFailed + writeFault.value)
      ensures out.Done? ==>
        var row := Apply(old(rows)[id], UpdatePatch(data).value);
        && rows == old(rows)[id := row]
        && out.value == FromDatabase(row["owner" := owner])
        && Field(row, "owner_id") == Field(old(rows)[id], "owner_id")
    {
      if checkFault.Some? {
        out := Thrown(CheckFailed + checkFault.value);
      } else if id !in rows {
        out := NoRecord;
      } else if !Owns(rows[id], caller) {
        out := Thrown(Forbidden);
      } else {
        var patch := BuildUpdateData(data);
        if patch.None? {
          out := TypeFault;
        } else {
          out := Write(id, patch.value, owner, writeFault);
        }
      }
    }

    /** The `update` call of `updateResource`, given the built patch. */
    method Write(id: string, patch: Patch, owner: Json, writeFault: Option<string>) returns (out: Outcome<Resource>)
      requires id in rows
      requires Valid()
      modifies this
      ensures Valid()
      ensures writeFault.Some? ==> out == Thrown(UpdateFailed + writeFault.value) && rows == old(rows)
      ensures writeFault.None? ==>
        var row := Apply(old(rows)[id], patch);
        && rows == old(rows)[id := row]
        && out == Done(FromDatabase(row["owner" := owner]))
        && Field(row, "owner_id") == Field(old(rows)[id], "owner_id")
    {
      if writeFault.Some? {
        out := Thrown(UpdateFailed + writeFault.value);
      } else {
        var row := Apply(rows[id], patch);
        ApplyKeepsIdentity(rows[id], patch);
        rows := rows[id := row];
        out := Done(FromDatabase(row["owner" := owner]));
      }
    }

    /** `deleteResource`: the same two checks, then exactly that row is removed. */
    method DeleteResource(id: string, caller: Json, checkFault: Option<string>, deleteFault: Option<string>)
      returns (out: Outcome<bool>)
      requires Valid()
      modifies this
      ensures Valid()
      ensures out.Done? <==> (checkFault.None? && id in old(rows) && Owns(old(rows)[id], caller) && deleteFault.None?)
      ensures out.Done? ==> out.value && rows == old(rows) - {id}
      ensures !out.Done? ==> rows == old(rows)
      ensures checkFault.Some? ==> out == Thrown(CheckFailed + checkFault.value)
      ensures checkFault.None? && id !in old(rows) ==> out == NoRecord
      ensures checkFault.None? && id in old(rows) && !Owns(old(rows)[id], caller) ==> out == Thrown(Forbidden)
      ensures checkFault.None? && id in old(rows) && Owns(old(rows)[id], caller) && deleteFault.Some? ==>
        out == Thrown(DeleteFailed + deleteFault.value)
    {
      if checkFault.Some? {
        out := Thrown(CheckFailed + checkFault.value);
      } else if id !in rows {
        out := NoRecord;
      } else if !Owns(rows[id], caller) {
        out := Thrown(Forbidden);
      } else if deleteFault.Some? {
        out := Thrown(DeleteFailed + deleteFault.value);
      } else {
        rows := rows - {id};
        out := Done(true);
      }
    }
  }

  // ---------------------------------------------------------------------------
  // Listing

  /** The query parameters of a listing and the caller's id; a parameter is a string or absent. */
  datatype Filters = Filters(
    courseCode: Option<string>,
    hashtag: Option<string>,
    scope: Option<string>,
    search: Option<string>,
    caller: Json)

  /** A query parameter that is present and non-empty (truthy). */
  predicate Given(p: Option<string>)
  {
    p.Some? && |p.value| > 0
  }

  /** The answer of `getAllResources`. */
  datatype Listing = Listing(resources: seq<Resource>, count: nat, filter: string)

  /** One clause the listing query accumulates. */
  datatype Condition =
    | OwnerIs(owner: Json)
    | OwnerIn(owners: seq<Json>)
    | CourseIs(code: string)
    | Tagged(tag: string)
    | Mentions(term: string)

  /** A case-insensitive substring match of a text column. */
  predicate ColumnMentions(row: Row, column: string, term: string)
  {
    Field(row, column).Str? && Contains(Lower(Field(row, column).s), Lower(term))
  }

  predicate Holds(c: Condition, row: Row)
  {
    match c
    case OwnerIs(owner) => Field(row, "owner_id") == owner
    case OwnerIn(owners) => Field(row, "owner_id") in owners
    case CourseIs(code) => Field(row, "course_code") == Str(code)
    case Tagged(tag) => Field(row, "hashtags").Arr? && Str(tag) in Field(row, "hashtags").items
    case Mentions(term) => ColumnMentions(row, "title", term) || ColumnMentions(row, "description", term)
  }

  predicate HoldsAll(cs: seq<Condition>, row: Row)
  {
    forall i :: 0 <= i < |cs| ==> Holds(cs[i], row)
  }

  /** The clauses the query builder adds for these filters. */
  function Conditions(f: Filters, following: seq<Json>): seq<Condition>
  {
    ScopeCondition(f, following) + CourseCondition(f) + TagCondition(f) + SearchCondition(f)
  }

  function ScopeCondition(f: Filters, following: seq<Json>): seq<Condition>
  {
    if Given(f.scope) && f.scope.value == "my" then [OwnerIs(f.caller)]
    else if Given(f.scope) && f.scope.value == "following" then [OwnerIn(following)]
    else []
  }

  function CourseCondition(f: Filters): seq<Condition>
  {
    if Given(f.courseCode) then [CourseIs(f.courseCode.value)] else []
  }

  function TagCondition(f: Filters): seq<Condition>
  {
    if Given(f.hashtag) then [Tagged(f.hashtag.value)] else []
  }

  function SearchCondition(f: Filters): seq<Condition>
  {
    if Given(f.search) then [Mentions(f.search.value)] else []
  }

  /** What a row must satisfy to be listed, one filter at a time. */
  predicate Listed(f: Filters, following: seq<Json>, row: Row)
  {
    && (Given(f.scope) && f.scope.value == "my" ==> Field(row, "owner_id") == f.caller)
    && (Given(f.scope) && f.scope.value == "following" ==> Field(row, "owner_id") in following)
    && (Given(f.courseCode) ==> Field(row, "course_code") == Str(f.courseCode.value))
    && (Given(f.hashtag) ==> Field(row, "hashtags").Arr? && Str(f.hashtag.value) in Field(row, "hashtags").items)
    && (Given(f.search) ==> ColumnMentions(row, "title", f.search.value) || ColumnMentions(row, "description", f.search.value))
  }

  lemma HoldsAllOne(c: Condition, row: Row)
    ensures HoldsAll([c], row) <==> Holds(c, row)
  {
    assert [c][0] == c;
  }

  lemma HoldsAllConcat(a: seq<Condition>, b: seq<Condition>, row: Row)
    ensures HoldsAll(a + b, row) <==> HoldsAll(a, row) && HoldsAll(b, row)
  {
    if HoldsAll(a, row) && HoldsAll(b, row) {
      forall i | 0 <= i < |a + b| ensures Holds((a + b)[i], row) {
        if i >= |a| { assert (a + b)[i] == b[i - |a|]; }
      }
    }
    if HoldsAll(a + b, row) {
      forall i | 0 <= i < |a| ensures Holds(a[i], row) {
        assert (a + b)[i] == a[i];
      }
      forall i | 0 <= i < |b| ensures Holds(b[i], row) {
        assert (a + b)[|a| + i] == b[i];
      }
    }
  }

  /** The accumulated clauses select exactly the rows the filters describe. */
  lemma ConditionsMeanListed(f: Filters, following: seq<Json>, row: Row)
    ensures HoldsAll(Conditions(f, following), row) <==> Listed(f, following, row)
  {
    var scope := ScopeCondition(f, following);
    var course, tag, search := CourseCondition(f), TagCondition(f), SearchCondition(f);
    if scope != [] { HoldsAllOne(scope[0], row); }
    if course != [] { HoldsAllOne(course[0], row); }
    if tag != [] { HoldsAllOne(tag[0], row); }
    if search != [] { HoldsAllOne(search[0], row); }
    HoldsAllConcat(scope, course, row);
    HoldsAllConcat(scope + course, tag, row);
    HoldsAllConcat(scope + course + tag, search, row);
  }

  /** The rows of `table` that satisfy every clause, in table order. */
  function Select(table: seq<Row>, cs: seq<Condition>): (r: seq<Row>)
    ensures |r| <= |table|
    ensures forall row :: row in r <==> row in table && HoldsAll(cs, row)
    ensures forall row :: HoldsAll(cs, row) ==> multiset(r)[row] == multiset(table)[row]
  {
    if table == [] then []
    else
      var rest := Select(table[1..], cs);
      assert table == [table[0]] + table[1..];
      if HoldsAll(cs, table[0]) then [table[0]] + rest else rest
  }

  /** `created_at` as an ordering key (timestamps are modelled as integers). */
  function Stamp(row: Row): int
  {
    match Field(row, "created_at")
    case Num(n) => n
    case _ => 0
  }

  /** Each row is at least as new as the one after it. */
  predicate NewestFirst(rs: seq<Row>)
  {
    forall i :: 0 < i < |rs| ==> Stamp(rs[i - 1]) >= Stamp(rs[i])
  }

  /** Newest first between neighbours means newest first between any two rows. */
  lemma {:induction false} NewestFirstPairwise(rs: seq<Row>)
    requires NewestFirst(rs)
    ensures forall i, j :: 0 <= i < j < |rs| ==> Stamp(rs[i]) >= Stamp(rs[j])
  {
    if |rs| > 1 {
      NewestFirstPairwise(rs[1..]);
      forall i, j | 0 <= i < j < |rs| ensures Stamp(rs[i]) >= Stamp(rs[j]) {
        if i > 0 {
          assert rs[i] == rs[1..][i - 1] && rs[j] == rs[1..][j - 1];
        } else if j > 1 {
          assert rs[1] == rs[1..][0] && rs[j] == rs[1..][j - 1];
        }
      }
    }
  }

  /** Puts `row` before the first row that is not newer than it. */
  function InsertByStamp(row: Row, rs: seq<Row>): (r: seq<Row>)
    ensures multiset(r) == multiset(rs) + multiset{row}
  {
    if rs == [] || Stamp(row) >= Stamp(rs[0]) then [row] + rs
    else
      assert rs == [rs[0]] + rs[1..];
      [rs[0]] + InsertByStamp(row, rs[1..])
  }

  /** Inserting into a newest-first list keeps it newest first. */
  lemma {:induction false} InsertByStampSorted(row: Row, rs: seq<Row>)
    requires NewestFirst(rs)
    ensures NewestFirst(InsertByStamp(row, rs))
    ensures InsertByStamp(row, rs)[0] == row || (|rs| > 0 && InsertByStamp(row, rs)[0] == rs[0])
  {
    if rs != [] && Stamp(row) < Stamp(rs[0]) {
      assert NewestFirst(rs[1..]) by {
        forall i | 0 < i < |rs[1..]| ensures Stamp(rs[1..][i - 1]) >= Stamp(rs[1..][i]) {
          assert rs[1..][i - 1] == rs[i] && rs[1..][i] == rs[i + 1];
        }
      }
      InsertByStampSorted(row, rs[1..]);
      var tail := InsertByStamp(row, rs[1..]);
      var r := [rs[0]] + tail;
      forall i | 0 < i < |r| ensures Stamp(r[i - 1]) >= Stamp(r[i]) {
        if i > 1 {
          assert r[i - 1] == tail[i - 2] && r[i] == tail[i - 1];
        }
      }
    }
  }

  /** `order('created_at', { ascending: false })`: a newest-first permutation. */
  function SortByNewest(rs: seq<Row>): (r: seq<Row>)
    ensures NewestFirst(r)
    ensures multiset(r) == multiset(rs)
  {
    if rs == [] then []
    else
      assert rs == [rs[0]] + rs[1..];
      InsertByStampSorted(rs[0], SortByNewest(rs[1..]));
      InsertByStamp(rs[0], SortByNewest(rs[1..]))
  }

  /** `data.map(r => Resource.fromDatabase(r))`. */
  function Resources(rows: seq<Row>): (r: seq<Resource>)
    ensures |r| == |rows|
    ensures forall i :: 0 <= i < |rows| ==> r[i] == FromDatabase(rows[i])
  {
    seq(|rows|, i requires 0 <= i < |rows| => FromDatabase(rows[i]))
  }

  /** `filter || 'all'`. */
  function Echo(scope: Option<string>): string
  {
    if Given(scope) then scope.value else "all"
  }

  /**
   * The `filter` branch of `getAllResources`: its owner condition, or the
   * answer it gives without querying (`stop`).
   */
  method ScopeQuery(f: Filters, following: seq<Json>) returns (stop: Option<Outcome<Listing>>, query: seq<Condition>)
    ensures Given(f.scope) && f.scope.value == "my" && !Truthy(f.caller) ==> stop == Some(Thrown(AuthRequiredMessage))
    ensures Given(f.scope) && f.scope.value == "following" && following == [] ==> stop == Some(Done(Listing([], 0, "following")))
    ensures stop.None? <==> !(Given(f.scope) && f.scope.value == "my" && !Truthy(f.caller)) && !(Given(f.scope) && f.scope.value == "following" && following == [])
    ensures stop.None? ==> query == ScopeCondition(f, following)
  {
    stop, query := None, [];
    if Given(f.scope) {
      if f.scope.value == "my" {
        if !Truthy(f.caller) {
          return Some(Thrown(AuthRequiredMessage)), query;
        }
        query := query + [OwnerIs(f.caller)];
      } else if f.scope.value == "following" {
        if |following| > 0 {
          query := query + [OwnerIn(following)];
        } else {
          return Some(Done(Listing([], 0, Echo(f.scope)))), query;
        }
      }
    }
  }

  /**
   * `getAllResources` over the rows the caller may read. `following` holds the
   * `following_id` values of the caller's follower rows (empty when that
   * lookup returns nothing); `fault` is the error of the main query.
   */
  method GetAllResources(table: seq<Row>, f: Filters, following: seq<Json>, fault: Option<string>)
    returns (out: Outcome<Listing>)
    ensures Given(f.scope) && f.scope.value == "my" && !Truthy(f.caller) ==> out == Thrown(AuthRequiredMessage)
    ensures Given(f.scope) && f.scope.value == "following" && following == [] ==>
      out == Done(Listing([], 0, "following"))
    ensures out.Done? && !(Given(f.scope) && f.scope.value == "following" && following == []) ==>
      var selected := SortByNewest(Select(table, Conditions(f, following)));
      out.value == Listing(Resources(selected), |selected|, Echo(f.scope))
    ensures out.Thrown? && out != Thrown(AuthRequiredMessage) ==> fault.Some? && out == Thrown(FetchAllFailed + fault.value)
    ensures out.Done? || out.Thrown?
    ensures fault.None? && !(Given(f.scope) && f.scope.value == "my" && !Truthy(f.caller)) ==> out.Done?
    ensures (fault.Some? && !(Given(f.scope) && f.scope.value == "my" && !Truthy(f.caller))
             && !(Given(f.scope) && f.scope.value == "following" && following == [])) ==>
      out == Thrown(FetchAllFailed + fault.value)
  {
    var stop, query := ScopeQuery(f, following);
    if stop.Some? {
      return stop.value;
    }
    if Given(f.courseCode) {
      query := query + [CourseIs(f.courseCode.value)];
    }
    if Given(f.hashtag) {
      query := query + [Tagged(f.hashtag.value)];
    }
    if Given(f.search) {
      query := query + [Mentions(f.search.value)];
    }
    assert query == Conditions(f, following);
    if fault.Some? {
      return Thrown(FetchAllFailed + fault.value);
    }
    var selected := SortByNewest(Select(table, query));
    var resources := Resources(selected);
    return Done(Listing(resources, |resources|, Echo(f.scope)));
  }

  /**
   * A listed row is exactly a table row meeting every given filter, each
   * such row appears as often as in the table, and the list is newest first.
   */
  lemma ListingSelectsFilteredRows(table: seq<Row>, f: Filters, following: seq<Json>, row: Row)
    ensures var selected := SortByNewest(Select(table, Conditions(f, following)));
      && NewestFirst(selected)
      && (row in selected <==> row in table && Listed(f, following, row))
      && (Listed(f, following, row) ==> multiset(selected)[row] == multiset(table)[row])
  {
    ConditionsMeanListed(f, following, row);
    var selected := SortByNewest(Select(table, Conditions(f, following)));
    assert row in selected <==> row in multiset(selected);
  }

  // ---------------------------------------------------------------------------
  // Validation and shaping together

  /** The columns of a shaped insert: the caller as owner, trimmed or null texts, the upper-cased type, `media` as given, defaults for `hashtags` and `upvote_count`. */
  lemma InsertShape(data: Json, caller: Json)
    requires InsertData(data, caller).Some?
    ensures var row := InsertData(data, caller).value;
      && row.Keys == InsertKeys
      && row["owner_id"] == caller
      && row["title"] == Str(Trim(Member(data, "title").s))
      && Some(row["description"]) == TrimOrNull(Member(data, "description"))
      && Some(row["course_code"]) == TrimOrNull(Member(data, "course_code"))
      && row["resource_type"] == Str(Upper(Member(data, "resource_type").s))
      && row["media"] == Member(data, "media")
      && row["hashtags"] == (if Truthy(Member(data, "hashtags")) then Member(data, "hashtags") else Arr([]))
      && row["upvote_count"] == Num(0)
  {
    var title, resourceType := Member(data, "title"), Member(data, "resource_type");
    var description := TrimOrNull(Member(data, "description")).value;
    var courseCode := TrimOrNull(Member(data, "course_code")).value;
    InsertRowColumns(caller, Str(Trim(title.s)), description, courseCode,
                     Str(Upper(resourceType.s)), Member(data, "media"), Or(Member(data, "hashtags"), Arr([])));
  }

  lemma InsertRowColumns(owner: Json, title: Json, description: Json, courseCode: Json, resourceType: Json,
                         media: Json, hashtags: Json)
    ensures var row := InsertRow(owner, title, description, courseCode, resourceType, media, hashtags);
      && row.Keys == InsertKeys
      && row["owner_id"] == owner && row["title"] == title && row["description"] == description
      && row["course_code"] == courseCode && row["resource_type"] == resourceType
      && row["media"] == media && row["hashtags"] == hashtags && row["upvote_count"] == Num(0)
  {
  }

  /** A title accepted by validation is stored non-blank and within 255 UTF-16 code units. */
  lemma ShapedTitle(title: Json)
    requires ValidatorProperties.TitleAccepted(title)
    ensures 0 < |Trim(title.s)| && Utf16Length(Trim(title.s)) <= 255
  {
    Utf16LengthOfTrim(title.s);
  }

  /** A type accepted by validation is stored as URL or DOCUMENT. */
  lemma ShapedType(resourceType: Json)
    requires ValidatorProperties.TypeAccepted(resourceType)
    ensures Str(Upper(resourceType.s)) == Str("URL") || Str(Upper(resourceType.s)) == Str("DOCUMENT")
  {
  }

  /** A body that passed create validation shapes without a TypeError into a record with a non-blank title and a known type. */
  lemma ValidatedCreateShapes(data: Json, caller: Json)
    requires ValidatorProperties.CreateAccepted(data)
    ensures InsertData(data, caller).Some?
    ensures var row := InsertData(data, caller).value;
      && row["title"].Str? && 0 < |row["title"].s| && Utf16Length(row["title"].s) <= 255
      && (row["resource_type"] == Str("URL") || row["resource_type"] == Str("DOCUMENT"))
  {
    ShapedTitle(Member(data, "title"));
    ShapedType(Member(data, "resource_type"));
    InsertShape(data, caller);
  }

  /** A body that passed update validation patches without a TypeError; a written title is non-blank and a written type is known. */
  lemma ValidatedUpdatePatches(data: Json, validUrl: Json -> bool)
    requires ValidatorProperties.UpdateAccepted(data, validUrl)
    ensures UpdatePatch(data).Some?
    ensures var p := UpdatePatch(data).value;
      && (p.title.Some? ==> p.title.value.Str? && 0 < |p.title.value.s| && Utf16Length(p.title.value.s) <= 255)
      && (p.resourceType.Some? ==> p.resourceType.value == Str("URL") || p.resourceType.value == Str("DOCUMENT"))
  {
    var title, resourceType := Member(data, "title"), Member(data, "resource_type");
    if title != Undefined { ShapedTitle(title); }
    if resourceType != Undefined { ShapedType(resourceType); }
  }

  /** Data that passed `validateCreateResource` builds its insert without a TypeError. */
  lemma PassedCreateInserts(data: Json, caller: Json)
    requires ResourceValidator.CreateErrors(data) == Some([])
    ensures InsertData(data, caller).Some?
  {
    ValidatorProperties.CreateAcceptedIff(data);
    ValidatedCreateShapes(data, caller);
  }

  /** A body that passed `validateUpdateResource` builds its patch without a TypeError. */
  lemma PassedUpdatePatches(data: Json, validUrl: Json -> bool)
    requires ResourceValidator.UpdateErrors(data, validUrl) == Some([])
    ensures UpdatePatch(data).Some?
  {
    ValidatorProperties.UpdateAcceptedIff(data, validUrl);
    ValidatedUpdatePatches(data, validUrl);
  }
}
