/**
 * The `Resource` record handed to clients: built once from a stored row with
 * two defaults, and projected back to exactly eleven keys by `toJSON`.
 */
module ResourceModel {
  import opened JsonValues

  datatype Resource = Resource(
    id: Json,
    ownerId: Json,
    title: Json,
    description: Json,
    resourceType: Json,
    media: Json,
    courseCode: Json,
    hashtags: Json,
    upvoteCount: Json,
    createdAt: Json,
    owner: Json)

  /** The keys `toJSON` writes. */
  const JsonKeys: set<string> := {
    "id", "owner_id", "title", "description", "resource_type", "media",
    "course_code", "hashtags", "upvote_count", "created_at", "owner"
  }

  /** `v || fallback`. */
  function Or(v: Json, fallback: Json): (r: Json)
    ensures Truthy(v) ==> r == v
    ensures !Truthy(v) ==> r == fallback
  {
    if Truthy(v) then v else fallback
  }

  /** `new Resource(data)`, which is also `Resource.fromDatabase(data)`. */
  function FromDatabase(data: Row): (r: Resource)
    ensures Truthy(r.hashtags)
    ensures r.upvoteCount == Num(0) || Truthy(r.upvoteCount)
  {
    Resource(
      Field(data, "id"),
      Field(data, "owner_id"),
      Field(data, "title"),
      Field(data, "description"),
      Field(data, "resource_type"),
      Field(data, "media"),
      Field(data, "course_code"),
      Or(Field(data, "hashtags"), Arr([])),
      Or(Field(data, "upvote_count"), Num(0)),
      Field(data, "created_at"),
      Field(data, "owner"))
  }

  /** `resource.toJSON()`. */
  function ToJson(r: Resource): (j: Row)
    ensures j.Keys == JsonKeys
  {
    map[
      "id" := r.id,
      "owner_id" := r.ownerId,
      "title" := r.title,
      "description" := r.description,
      "resource_type" := r.resourceType,
      "media" := r.media,
      "course_code" := r.courseCode,
      "hashtags" := r.hashtags,
      "upvote_count" := r.upvoteCount,
      "created_at" := r.createdAt,
      "owner" := r.owner
    ]
  }

  /**
   * Serialising a resource read from `data` carries the row's identity keys
   * (`undefined` where the row has none).
   */
  lemma ToJsonCopiesIdentity(data: Row)
    ensures var j := ToJson(FromDatabase(data));
      && j["id"] == Field(data, "id")
      && j["owner_id"] == Field(data, "owner_id")
      && j["created_at"] == Field(data, "created_at")
      && j["owner"] == Field(data, "owner")
  {
  }

  /**
   * Serialising a resource read from `data` carries the row's content keys
   * (`undefined` where the row has none).
   */
  lemma ToJsonCopiesContent(data: Row)
    ensures var j := ToJson(FromDatabase(data));
      && j["title"] == Field(data, "title")
      && j["description"] == Field(data, "description")
      && j["resource_type"] == Field(data, "resource_type")
      && j["media"] == Field(data, "media")
      && j["course_code"] == Field(data, "course_code")
  {
  }

  /**
   * `hashtags` defaults to [] and `upvote_count` to 0 when falsy, and every
   * other key of the row (`file_url`, ...) is dropped.
   */
  lemma ToJsonDefaults(data: Row)
    ensures var j := ToJson(FromDatabase(data));
      && j["hashtags"] == Or(Field(data, "hashtags"), Arr([]))
      && j["upvote_count"] == Or(Field(data, "upvote_count"), Num(0))
      && (forall k :: k in data && k !in JsonKeys ==> k !in j)
  {
  }

  /** A row that already holds all eleven keys, and no falsy default, serialises back to itself restricted to them. */
  lemma ToJsonRestoresRow(data: Row)
    requires JsonKeys <= data.Keys
    requires Truthy(data["hashtags"])
    requires Truthy(data["upvote_count"]) || data["upvote_count"] == Num(0)
    ensures ToJson(FromDatabase(data)) == map k | k in JsonKeys :: data[k]
  {
    var j := ToJson(FromDatabase(data));
    var m := map k | k in JsonKeys :: data[k];
    assert j.Keys == m.Keys;
    assert forall k :: k in j ==> j[k] == m[k];
  }

  /** Reading back a serialised resource gives the same resource. */
  lemma FromDatabaseOfToJson(data: Row)
    ensures FromDatabase(ToJson(FromDatabase(data))) == FromDatabase(data)
  {
  }
}
