/**
 * The `media` aggregate of a resource and the file service's operations on it:
 * find, remove and patch one entry by its `id`, searching the categories
 * files, images, videos and urls in that order (`documents` is never searched),
 * plus the error wrapping of a single upload.
 */
module FileService {
  import opened Wrappers
  import opened JsonValues
  import opened Cloudinary

  /** A media entry is a plain object (`url`, `publicId`, `caption`, `id`, ...). */
  type Entry = Row

  datatype Kind = Files | Images | Videos | Urls | Documents

  /** The property name of a category inside `media`. */
  function Name(k: Kind): string
  {
    match k
    case Files => "files"
    case Images => "images"
    case Videos => "videos"
    case Urls => "urls"
    case Documents => "documents"
  }

  /** Position of a category in the search order; `documents` comes after all searched ones. */
  function Rank(k: Kind): nat
  {
    match k
    case Files => 0
    case Images => 1
    case Videos => 2
    case Urls => 3
    case Documents => 4
  }

  /** The categories every operation visits, in order. */
  const SearchOrder: seq<Kind> := [Files, Images, Videos, Urls]

  predicate Searched(k: Kind)
  {
    Rank(k) < 4
  }

  /**
   * One category of the aggregate. `Absent` covers a missing, falsy or
   * non-array value: every operation skips it.
   */
  datatype Category = Absent | Present(entries: seq<Entry>)

  datatype Aggregate = Aggregate(files: Category, images: Category, videos: Category, urls: Category, documents: Category)
  {
    function Get(k: Kind): Category
    {
      match k
      case Files => files
      case Images => images
      case Videos => videos
      case Urls => urls
      case Documents => documents
    }

    function With(k: Kind, c: Category): (r: Aggregate)
      ensures r.Get(k) == c
      ensures forall k' :: k' != k ==> r.Get(k') == Get(k')
    {
      match k
      case Files => this.(files := c)
      case Images => this.(images := c)
      case Videos => this.(videos := c)
      case Urls => this.(urls := c)
      case Documents => this.(documents := c)
    }
  }

  lemma SearchOrderRanks()
    ensures forall i :: 0 <= i < |SearchOrder| ==> Rank(SearchOrder[i]) == i
    ensures forall k :: Searched(k) ==> SearchOrder[Rank(k)] == k
  {
  }

  /** `f.id === fileId`. */
  predicate Matches(e: Entry, fileId: Json)
  {
    StrictEq(Field(e, "id"), fileId)
  }

  predicate NoMatchIn(c: Category, fileId: Json)
  {
    c.Present? ==> forall j :: 0 <= j < |c.entries| ==> !Matches(c.entries[j], fileId)
  }

  /** `entries.findIndex(f => f.id === fileId)`, with `None` for -1. */
  function FirstMatch(entries: seq<Entry>, fileId: Json): (r: Option<nat>)
    ensures r.Some? ==> r.value < |entries| && Matches(entries[r.value], fileId)
    ensures r.Some? ==> forall j :: 0 <= j < r.value ==> !Matches(entries[j], fileId)
    ensures r.None? ==> forall j :: 0 <= j < |entries| ==> !Matches(entries[j], fileId)
  {
    if entries == [] then None
    else if Matches(entries[0], fileId) then Some(0)
    else match FirstMatch(entries[1..], fileId)
      case Some(i) => Some(i + 1)
      case None => None
  }

  /** Where an entry sits: its category and its index there. */
  datatype Hit = Hit(kind: Kind, index: nat)

  /**
   * `h` is the entry the search stops at: it matches, no entry before it in its
   * category matches, and no entry of an earlier searched category matches.
   */
  predicate FirstHit(a: Aggregate, fileId: Json, h: Hit)
  {
    && Searched(h.kind)
    && a.Get(h.kind).Present?
    && h.index < |a.Get(h.kind).entries|
    && Matches(a.Get(h.kind).entries[h.index], fileId)
    && (forall j :: 0 <= j < h.index ==> !Matches(a.Get(h.kind).entries[j], fileId))
    && (forall k :: Rank(k) < Rank(h.kind) ==> NoMatchIn(a.Get(k), fileId))
  }

  /** The search over `SearchOrder[from..]`. */
  function LocateFrom(a: Aggregate, fileId: Json, from: nat): (r: Option<Hit>)
    requires from <= |SearchOrder|
    decreases |SearchOrder| - from
    ensures r.Some? ==> Searched(r.value.kind) && Rank(r.value.kind) >= from
    ensures r.Some? ==> a.Get(r.value.kind).Present? && r.value.index < |a.Get(r.value.kind).entries|
    ensures r.Some? ==> Matches(a.Get(r.value.kind).entries[r.value.index], fileId)
    ensures r.Some? ==> forall j :: 0 <= j < r.value.index ==> !Matches(a.Get(r.value.kind).entries[j], fileId)
    ensures r.Some? ==> forall k :: from <= Rank(k) < Rank(r.value.kind) ==> NoMatchIn(a.Get(k), fileId)
    ensures r.None? ==> forall k :: from <= Rank(k) < |SearchOrder| ==> NoMatchIn(a.Get(k), fileId)
  {
    if from == |SearchOrder| then None
    else
      var k := SearchOrder[from];
      assert Rank(k) == from;
      match a.Get(k)
      case Absent => LocateFrom(a, fileId, from + 1)
      case Present(entries) =>
        match FirstMatch(entries, fileId)
        case Some(i) => Some(Hit(k, i))
        case None => LocateFrom(a, fileId, from + 1)
  }

  /** A category without a match passes the search on to the next one. */
  lemma LocateMovesOn(a: Aggregate, fileId: Json, from: nat)
    requires from < |SearchOrder|
    requires NoMatchIn(a.Get(SearchOrder[from]), fileId)
    ensures LocateFrom(a, fileId, from + 1) == LocateFrom(a, fileId, from)
  {
  }

  /** A category with a match ends the search at its first match. */
  lemma LocateStopsAt(a: Aggregate, fileId: Json, from: nat, index: nat)
    requires from < |SearchOrder| && a.Get(SearchOrder[from]).Present?
    requires FirstMatch(a.Get(SearchOrder[from]).entries, fileId) == Some(index)
    ensures LocateFrom(a, fileId, from) == Some(Hit(SearchOrder[from], index))
  {
  }

  /** The entry an operation on `fileId` acts on; nothing for a falsy id or when no entry matches. */
  function Locate(a: Aggregate, fileId: Json): (r: Option<Hit>)
    ensures r.Some? ==> Truthy(fileId) && FirstHit(a, fileId, r.value)
    ensures r.None? <==> !Truthy(fileId) || forall k :: Searched(k) ==> NoMatchIn(a.Get(k), fileId)
  {
    if !Truthy(fileId) then None else LocateFrom(a, fileId, 0)
  }

  /** At most one position is the first hit. */
  lemma FirstHitUnique(a: Aggregate, fileId: Json, h1: Hit, h2: Hit)
    requires FirstHit(a, fileId, h1) && FirstHit(a, fileId, h2)
    ensures h1 == h2
  {
  }

  /** The entry found, copied and tagged with the category it was found in (`{ ...file, type }`). */
  function Tagged(e: Entry, k: Kind): (r: Entry)
    ensures Field(r, "type") == Str(Name(k))
    ensures forall key :: key != "type" ==> Field(r, key) == Field(e, key)
  {
    e["type" := Str(Name(k))]
  }

  /** `findFileById(media, fileId)`; `None` stands for a missing `media` and for a `null` result. */
  function FindFileById(media: Option<Aggregate>, fileId: Json): (r: Option<Entry>)
    ensures media.None? || !Truthy(fileId) ==> r.None?
    ensures r.Some? ==> exists h ::
      FirstHit(media.value, fileId, h) && r.value == Tagged(media.value.Get(h.kind).entries[h.index], h.kind)
    ensures r.None? && media.Some? && Truthy(fileId) ==>
      forall k :: Searched(k) ==> NoMatchIn(media.value.Get(k), fileId)
  {
    if media.None? then None
    else match Locate(media.value, fileId)
      case Some(h) => Some(Tagged(media.value.Get(h.kind).entries[h.index], h.kind))
      case None => None
  }

  /** `s` without its element at `i` (`splice(i, 1)`). */
  function RemoveAt(s: seq<Entry>, i: nat): (r: seq<Entry>)
    requires i < |s|
    ensures |r| == |s| - 1
    ensures multiset(r) + multiset{s[i]} == multiset(s)
  {
    assert s == s[..i] + [s[i]] + s[i + 1..];
    s[..i] + s[i + 1..]
  }

  /** The aggregate after `removeFileById`, and the entry it removed. */
  function Removed(a: Aggregate, fileId: Json): (Aggregate, Option<Entry>)
  {
    match Locate(a, fileId)
    case Some(h) =>
      var es := a.Get(h.kind).entries;
      (a.With(h.kind, Present(RemoveAt(es, h.index))), Some(es[h.index]))
    case None => (a, None)
  }

  /**
   * Removal takes out exactly the first hit: that category loses exactly that
   * entry and keeps the others in order, and every other category is unchanged.
   */
  lemma RemovedTakesFirstHit(a: Aggregate, fileId: Json, h: Hit)
    requires FirstHit(a, fileId, h) && Truthy(fileId)
    ensures var (b, removed) := Removed(a, fileId); var es := a.Get(h.kind).entries;
      && removed == Some(es[h.index])
      && b.Get(h.kind) == Present(es[..h.index] + es[h.index + 1..])
      && |b.Get(h.kind).entries| == |es| - 1
      && multiset(b.Get(h.kind).entries) + multiset{es[h.index]} == multiset(es)
      && (forall k :: k != h.kind ==> b.Get(k) == a.Get(k))
  {
    FirstHitUnique(a, fileId, Locate(a, fileId).value, h);
  }

  /** Without a match, or with a falsy id, removal changes nothing and removes nothing. */
  lemma RemovedWithoutMatch(a: Aggregate, fileId: Json)
    requires !Truthy(fileId) || forall k :: Searched(k) ==> NoMatchIn(a.Get(k), fileId)
    ensures Removed(a, fileId) == (a, None)
  {
  }

  /** Removal takes out the very entry `findFileById` reports, minus its `type` tag. */
  lemma RemovedAgreesWithFind(a: Aggregate, fileId: Json)
    ensures Removed(a, fileId).1.Some? <==> FindFileById(Some(a), fileId).Some?
    ensures Removed(a, fileId).1.Some? ==>
      forall key :: key != "type" ==>
        Field(FindFileById(Some(a), fileId).value, key) == Field(Removed(a, fileId).1.value, key)
  {
  }

  /** Removal and patching never touch `documents`. */
  lemma DocumentsUntouched(a: Aggregate, fileId: Json, updates: Json)
    ensures Removed(a, fileId).0.documents == a.documents
    ensures Patched(a, fileId, updates).documents == a.documents
  {
  }

  /** The allowed keys of `updates` that are not `undefined`, copied onto the entry. */
  function PatchEntry(e: Entry, updates: Json): (r: Entry)
    ensures forall key :: key != "caption" && key != "originalName" ==> Field(r, key) == Field(e, key)
    ensures Member(updates, "caption") != Undefined ==> Field(r, "caption") == Member(updates, "caption")
    ensures Member(updates, "caption") == Undefined ==> Field(r, "caption") == Field(e, "caption")
    ensures Member(updates, "originalName") != Undefined ==> Field(r, "originalName") == Member(updates, "originalName")
    ensures Member(updates, "originalName") == Undefined ==> Field(r, "originalName") == Field(e, "originalName")
  {
    var withCaption := if Member(updates, "caption") != Undefined then e["caption" := Member(updates, "caption")] else e;
    if Member(updates, "originalName") != Undefined
    then withCaption["originalName" := Member(updates, "originalName")]
    else withCaption
  }

  /** The aggregate after `updateFileById`. */
  function Patched(a: Aggregate, fileId: Json, updates: Json): Aggregate
  {
    if !Truthy(updates) then a
    else match Locate(a, fileId)
      case Some(h) =>
        var es := a.Get(h.kind).entries;
        a.With(h.kind, Present(es[h.index := PatchEntry(es[h.index], updates)]))
      case None => a
  }

  /**
   * Patching changes only `caption` and `originalName` of the first hit: its other
   * fields (`id`, `url`, `publicId`, ...), the other entries of its category and
   * every other category keep their values.
   */
  lemma PatchedChangesOnlyFirstHit(a: Aggregate, fileId: Json, updates: Json, h: Hit)
    requires FirstHit(a, fileId, h) && Truthy(fileId) && Truthy(updates)
    ensures var b := Patched(a, fileId, updates); var es := a.Get(h.kind).entries;
      && b.Get(h.kind).Present?
      && |b.Get(h.kind).entries| == |es|
      && (forall j :: 0 <= j < |es| && j != h.index ==> b.Get(h.kind).entries[j] == es[j])
      && (forall key :: key != "caption" && key != "originalName" ==>
            Field(b.Get(h.kind).entries[h.index], key) == Field(es[h.index], key))
      && (forall k :: k != h.kind ==> b.Get(k) == a.Get(k))
  {
    FirstHitUnique(a, fileId, Locate(a, fileId).value, h);
  }

  /** With a falsy id or update object, or no match, patching changes nothing. */
  lemma PatchedWithoutMatch(a: Aggregate, fileId: Json, updates: Json)
    requires !Truthy(fileId) || !Truthy(updates) || forall k :: Searched(k) ==> NoMatchIn(a.Get(k), fileId)
    ensures Patched(a, fileId, updates) == a
  {
  }

  /** The `media` object the service mutates in place. */
  class Media {
    var files: Category
    var images: Category
    var videos: Category
    var urls: Category
    var documents: Category

    constructor (a: Aggregate)
      ensures Value() == a
    {
      files, images, videos, urls, documents := a.files, a.images, a.videos, a.urls, a.documents;
    }

    function Value(): Aggregate
      reads this
    {
      Aggregate(files, images, videos, urls, documents)
    }

    /** `media[Name(k)]`. */
    function Category(k: Kind): (c: Category)
      reads this
      ensures c == Value().Get(k)
    {
      match k
      case Files => files
      case Images => images
      case Videos => videos
      case Urls => urls
      case Documents => documents
    }

    /** `media[Name(k)] = c`. */
    method SetCategory(k: Kind, c: Category)
      modifies this
      ensures Value() == old(Value()).With(k, c)
    {
      match k
      case Files => files := c;
      case Images => images := c;
      case Videos => videos := c;
      case Urls => urls := c;
      case Documents => documents := c;
    }
  }

  /** `entries.findIndex(f => f.id === fileId)`. */
  method FindIndex(entries: seq<Entry>, fileId: Json) returns (index: int)
    ensures index == -1 <==> forall j :: 0 <= j < |entries| ==> !Matches(entries[j], fileId)
    ensures index != -1 ==> 0 <= index < |entries| && Matches(entries[index], fileId)
    ensures index != -1 ==> forall j :: 0 <= j < index ==> !Matches(entries[j], fileId)
  {
    var i := 0;
    while i < |entries|
      invariant 0 <= i <= |entries|
      invariant forall j :: 0 <= j < i ==> !Matches(entries[j], fileId)
    {
      if Matches(entries[i], fileId) {
        return i;
      }
      i := i + 1;
    }
    return -1;
  }

  /** `FindIndex` and `FirstMatch` agree. */
  lemma FindIndexIsFirstMatch(entries: seq<Entry>, fileId: Json, index: int)
    requires index == -1 <==> forall j :: 0 <= j < |entries| ==> !Matches(entries[j], fileId)
    requires index != -1 ==> 0 <= index < |entries| && Matches(entries[index], fileId)
    requires index != -1 ==> forall j :: 0 <= j < index ==> !Matches(entries[j], fileId)
    ensures index == -1 ==> FirstMatch(entries, fileId).None?
    ensures index != -1 ==> FirstMatch(entries, fileId) == Some(index)
  {
  }

  /** `Removed` and `Patched` at the hit `Locate` reports. */
  lemma RemovedAt(a: Aggregate, fileId: Json, h: Hit)
    requires Locate(a, fileId) == Some(h)
    ensures var es := a.Get(h.kind).entries;
      Removed(a, fileId) == (a.With(h.kind, Present(RemoveAt(es, h.index))), Some(es[h.index]))
  {
  }

  lemma PatchedAt(a: Aggregate, fileId: Json, updates: Json, h: Hit)
    requires Truthy(updates) && Locate(a, fileId) == Some(h)
    ensures var es := a.Get(h.kind).entries;
      Patched(a, fileId, updates) == a.With(h.kind, Present(es[h.index := PatchEntry(es[h.index], updates)]))
  {
  }

  /**
   * One iteration of `removeFileById`: when category `SearchOrder[k]` holds a
   * match, splices out its first match and returns it; the categories before
   * `k` hold none.
   */
  method RemoveInCategory(media: Media, k: nat, fileId: Json) returns (removedFile: Option<Entry>)
    requires k < |SearchOrder|
    requires LocateFrom(media.Value(), fileId, k) == Locate(media.Value(), fileId)
    modifies media
    ensures removedFile.None? <==> NoMatchIn(old(media.Value()).Get(SearchOrder[k]), fileId)
    ensures removedFile.None? ==>
      && media.Value() == old(media.Value())
      && LocateFrom(old(media.Value()), fileId, k + 1) == Locate(old(media.Value()), fileId)
    ensures removedFile.Some? ==> (media.Value(), removedFile) == Removed(old(media.Value()), fileId)
  {
    removedFile := None;
    ghost var a := media.Value();
    var category := media.Category(SearchOrder[k]);
    if category.Present? {
      var index := FindIndex(category.entries, fileId);
      FindIndexIsFirstMatch(category.entries, fileId, index);
      if index != -1 {
        LocateStopsAt(a, fileId, k, index);
        RemovedAt(a, fileId, Hit(SearchOrder[k], index));
        removedFile := Some(category.entries[index]);
        media.SetCategory(SearchOrder[k], Present(RemoveAt(category.entries, index)));
        return;
      }
    }
    LocateMovesOn(a, fileId, k);
  }

  /**
   * `removeFileById(media, fileId)`: splices the first hit out of its category and
   * returns the same `media` object with the removed entry.
   */
  method RemoveFileById(media: Media?, fileId: Json) returns (result: Media?, removedFile: Option<Entry>)
    modifies media
    ensures result == media
    ensures media == null ==> removedFile.None?
    ensures media != null ==> (media.Value(), removedFile) == Removed(old(media.Value()), fileId)
  {
    result, removedFile := media, None;
    if media != null && Truthy(fileId) {
      removedFile := RemoveFirstHit(media, fileId);
    }
  }

  /** The loop of `removeFileById` over the searched categories. */
  method RemoveFirstHit(media: Media, fileId: Json) returns (removedFile: Option<Entry>)
    requires Truthy(fileId)
    modifies media
    ensures (media.Value(), removedFile) == Removed(old(media.Value()), fileId)
  {
    removedFile := None;
    ghost var a := media.Value();
    var k := 0;
    while k < |SearchOrder|
      invariant 0 <= k <= |SearchOrder|
      invariant media.Value() == a && removedFile.None?
      invariant LocateFrom(a, fileId, k) == Locate(a, fileId)
    {
      removedFile := RemoveInCategory(media, k, fileId);
      if removedFile.Some? {
        return;
      }
      k := k + 1;
    }
  }

  /**
   * One iteration of `updateFileById`: when category `SearchOrder[k]` holds a
   * match, patches its first match; `found` says whether it did. The
   * categories before `k` hold none.
   */
  method PatchInCategory(media: Media, k: nat, fileId: Json, updates: Json) returns (found: bool)
    requires k < |SearchOrder| && Truthy(updates)
    requires LocateFrom(media.Value(), fileId, k) == Locate(media.Value(), fileId)
    modifies media
    ensures !found <==> NoMatchIn(old(media.Value()).Get(SearchOrder[k]), fileId)
    ensures !found ==>
      && media.Value() == old(media.Value())
      && LocateFrom(old(media.Value()), fileId, k + 1) == Locate(old(media.Value()), fileId)
    ensures found ==> media.Value() == Patched(old(media.Value()), fileId, updates)
  {
    found := false;
    ghost var a := media.Value();
    var category := media.Category(SearchOrder[k]);
    if category.Present? {
      var index := FindIndex(category.entries, fileId);
      FindIndexIsFirstMatch(category.entries, fileId, index);
      if index != -1 {
        LocateStopsAt(a, fileId, k, index);
        PatchedAt(a, fileId, updates, Hit(SearchOrder[k], index));
        var es := category.entries;
        media.SetCategory(SearchOrder[k], Present(es[index := PatchEntry(es[index], updates)]));
        found := true;
        return;
      }
    }
    LocateMovesOn(a, fileId, k);
  }

  /**
   * `updateFileById(media, fileId, updates)`: copies the defined `caption` and
   * `originalName` of `updates` onto the first hit and returns the same `media`.
   */
  method UpdateFileById(media: Media?, fileId: Json, updates: Json) returns (result: Media?)
    modifies media
    ensures result == media
    ensures media != null ==> media.Value() == Patched(old(media.Value()), fileId, updates)
  {
    result := media;
    if media != null && Truthy(fileId) && Truthy(updates) {
      PatchFirstHit(media, fileId, updates);
    }
  }

  /** The loop of `updateFileById` over the searched categories. */
  method PatchFirstHit(media: Media, fileId: Json, updates: Json)
    requires Truthy(fileId) && Truthy(updates)
    modifies media
    ensures media.Value() == Patched(old(media.Value()), fileId, updates)
  {
    ghost var a := media.Value();
    var k := 0;
    while k < |SearchOrder|
      invariant 0 <= k <= |SearchOrder|
      invariant media.Value() == a
      invariant LocateFrom(a, fileId, k) == Locate(a, fileId)
    {
      var found := PatchInCategory(media, k, fileId, updates);
      if found {
        return;
      }
      k := k + 1;
    }
  }

  const UploadFailurePrefix := "Failed to upload file: "

  /** `uploadFile`: the host's result fields, or its error message behind a fixed prefix. */
  function UploadFile(answer: HostAnswer): (r: Result<UploadResult, string>)
    ensures answer.HostOk? ==> r == Success(ReadHostResult(answer.response))
    ensures answer.HostError? ==> r == Failure(UploadFailurePrefix + answer.message)
  {
    match UploadToCloudinary(answer)
    case Success(u) => Success(UploadResult(u.url, u.publicId, u.resourceType, u.format, u.size))
    case Failure(message) => Failure(UploadFailurePrefix + message)
  }
}
