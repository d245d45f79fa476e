/**
 * The request schemas for photos: the lenient boolean coercer and the
 * payloads of the listing query, the create, upload, update and reorder
 * requests. The integer coercer is the one the cat schemas use.
 */
module PhotoSchemas {
  import opened Wrappers
  import opened Zod
  import opened CatSchemas

  /* ------------------------------ Coercers ------------------------------ */

  /** The boolean `zBool` makes of a boolean or a string. */
  function BoolOf(x: Raw): bool
    requires x.RBool? || x.RString?
  {
    match x
    case RBool(b) => b
    case RString(s) => if s == "true" then true else if s == "false" then false else s != ""
  }

  /**
   * `zBool`: a boolean passes through; a string is true unless it is empty
   * or spells "false"; anything else (a missing value too) matches no member
   * of the union.
   */
  function ZBool(path: Path, v: Option<Raw>): (r: Field<bool>)
    ensures r.Good? <==> v.Some? && (v.value.RBool? || v.value.RString?)
    ensures r.Good? && v.value.RBool? ==> r.value == v.value.b
    ensures r.Good? && v.value.RString? ==> (r.value <==> v.value.s != "" && v.value.s != "false")
    ensures !r.Good? ==> r == Bad([UnionIssue(path)])
  {
    match v
    case Some(RBool(b)) => Good(BoolOf(RBool(b)))
    case Some(RString(s)) => Good(BoolOf(RString(s)))
    case _ => Bad([UnionIssue(path)])
  }

  /** `z.union([schema, z.undefined()])`: a missing value is accepted; a value no member accepts is one union issue. */
  function OrUndefined<T>(path: Path, v: Option<Raw>, f: Field<T>): (r: Field<Option<T>>)
    ensures v.None? ==> r == Good(None)
    ensures v.Some? && !f.Bad? ==> r == f.Map(x => Some(x))
    ensures v.Some? && f.Bad? ==> r == Bad([UnionIssue(path)])
  {
    if v.None? then Good(None) else if f.Bad? then Bad([UnionIssue(path)]) else f.Map(x => Some(x))
  }

  /* -------------------------- Field shorthands -------------------------- */

  function IntField(prim: Primitives, f: map<string, Raw>, key: string): Field<int> {
    ZInt(prim, FieldPath(key), Lookup(f, key))
  }

  /** `z.union([zInt, z.undefined()]).default(d)`. */
  function IntDefault(prim: Primitives, f: map<string, Raw>, key: string, d: int): Field<int> {
    Default(Lookup(f, key), d, IntField(prim, f, key))
  }

  /** `z.union([zBool, z.undefined()]).default(d)`. */
  function BoolDefault(f: map<string, Raw>, key: string, d: bool): Field<bool> {
    Default(Lookup(f, key), d, ZBool(FieldPath(key), Lookup(f, key)))
  }

  /** Field `key` holds an integer `zInt` accepts. */
  predicate IntGiven(prim: Primitives, f: map<string, Raw>, key: string) {
    key in f && IntFits(prim, f[key])
  }

  /** Field `key` is missing or holds a boolean or a string. */
  predicate BoolAbsentOr(f: map<string, Raw>, key: string) {
    key !in f || f[key].RBool? || f[key].RString?
  }

  /** The integer field `key` holds, or `d` when it is missing. */
  function IntOr(prim: Primitives, f: map<string, Raw>, key: string, d: int): int
    requires IntAbsentOr(prim, f, key)
  {
    if key in f then IntOf(prim, f[key]) else d
  }

  /** The boolean field `key` holds, or `d` when it is missing. */
  function BoolOr(f: map<string, Raw>, key: string, d: bool): bool
    requires BoolAbsentOr(f, key)
  {
    if key in f then BoolOf(f[key]) else d
  }

  /* ---------------------------- Listing query --------------------------- */

  datatype PhotoListQuery = PhotoListQuery(catId: Option<int>, page: Option<int>, limit: Option<int>, sort: Option<string>)

  /** The message of a sort that does not match the pattern: the regular expression carries none of its own. */
  const PhotoSortMessage: string := "Invalid"

  /** `photosListQuerySchema.safeParse(query)`. */
  function ParsePhotoListQuery(prim: Primitives, query: Raw): (r: Parse<PhotoListQuery>)
    ensures r.Parsed? <==>
      && query.RObject?
      && IntAbsentOr(prim, query.fields, "catId")
      && IntAbsentOr(prim, query.fields, "page")
      && IntAbsentOr(prim, query.fields, "limit")
      && ("sort" in query.fields ==> query.fields["sort"].RString? && SortMatches(query.fields["sort"].s))
    ensures r.Parsed? ==> r.value.catId == (if "catId" in query.fields then Some(IntOf(prim, query.fields["catId"])) else None)
    ensures r.Parsed? ==> r.value.page == (if "page" in query.fields then Some(IntOf(prim, query.fields["page"])) else None)
    ensures r.Parsed? ==> r.value.limit == (if "limit" in query.fields then Some(IntOf(prim, query.fields["limit"])) else None)
    ensures r.Parsed? ==> r.value.sort == (if "sort" in query.fields then Some(query.fields["sort"].s) else None)
    ensures r.Parsed? && r.value.sort.Some? ==> SortMatches(r.value.sort.value)
    ensures r.Thrown? <==>
      query.RObject? && (IntThrows(prim, query.fields, "catId") || IntThrows(prim, query.fields, "page") || IntThrows(prim, query.fields, "limit"))
    ensures r.Thrown? ==> r.message == "Expected integer"
  {
    match query
    case RObject(f) =>
      var catId := OrUndefined(FieldPath("catId"), Lookup(f, "catId"), IntField(prim, f, "catId"));
      var page := OptionalInt(prim, "page", f);
      var limit := OptionalInt(prim, "limit", f);
      var sort := Optional(Lookup(f, "sort"), ZSort(FieldPath("sort"), Lookup(f, "sort"), PhotoSortMessage));
      var vs := [catId.Verdict(), page.Verdict(), limit.Verdict(), sort.Verdict()];
      var all := catId.Good? && page.Good? && limit.Good? && sort.Good?;
      Merge4(catId.Verdict(), page.Verdict(), limit.Verdict(), sort.Verdict());
      Conclude(Merge(vs), if all then Some(PhotoListQuery(catId.value, page.value, limit.value, sort.value)) else None)
    case _ => Failed([NotAnObject(query)])
  }

  /* ----------------------------- Create by URL --------------------------- */

  datatype PhotoByUrl = PhotoByUrl(catId: int, url: string, cover: bool, position: int)

  /** `photoCreateByUrlSchema.safeParse(body)`. */
  function ParsePhotoByUrl(prim: Primitives, body: Raw): (r: Parse<PhotoByUrl>)
    ensures r.Parsed? <==>
      && body.RObject?
      && IntGiven(prim, body.fields, "catId")
      && "url" in body.fields && body.fields["url"].RString? && prim.isUrl(body.fields["url"].s)
      && BoolAbsentOr(body.fields, "cover")
      && IntAbsentOr(prim, body.fields, "position")
    ensures r.Parsed? ==> r.value == PhotoByUrl(
      IntOf(prim, body.fields["catId"]), body.fields["url"].s,
      BoolOr(body.fields, "cover", false), IntOr(prim, body.fields, "position", 0))
    ensures r.Thrown? <==> body.RObject? && (IntThrows(prim, body.fields, "catId") || IntThrows(prim, body.fields, "position"))
    ensures r.Thrown? ==> r.message == "Expected integer"
    ensures body.RObject? && "catId" !in body.fields ==> r.Thrown? || (r.Failed? && UnionIssue(FieldPath("catId")) in r.issues)
  {
    match body
    case RObject(f) =>
      var catId := IntField(prim, f, "catId");
      var url := ZUrl(prim, FieldPath("url"), Lookup(f, "url"));
      var cover := BoolDefault(f, "cover", false);
      var position := IntDefault(prim, f, "position", 0);
      var vs := [catId.Verdict(), url.Verdict(), cover.Verdict(), position.Verdict()];
      var all := catId.Good? && url.Good? && cover.Good? && position.Good?;
      Merge4(catId.Verdict(), url.Verdict(), cover.Verdict(), position.Verdict());
      Conclude(Merge(vs), if all then Some(PhotoByUrl(catId.value, url.value, cover.value, position.value)) else None)
    case _ => Failed([NotAnObject(body)])
  }

  /* ------------------------------ Bulk create ---------------------------- */

  datatype PhotoBulk = PhotoBulk(catId: int, urls: seq<string>, startPosition: int)

  const TooFewMessage: string := "Array must contain at least 1 element(s)"

  /** A non-empty array whose every element is a string the URL check accepts. */
  predicate UrlList(prim: Primitives, x: Raw) {
    x.RArray? && |x.items| > 0 && forall k | 0 <= k < |x.items| :: x.items[k].RString? && prim.isUrl(x.items[k].s)
  }

  /** The `urls` field of a bulk create: a non-empty array of URL strings. */
  function BulkUrls(prim: Primitives, v: Option<Raw>): (r: Field<seq<string>>)
    ensures !r.Threw?
    ensures r.Good? <==> v.Some? && UrlList(prim, v.value)
    ensures r.Good? ==>
      && v.Some? && v.value.RArray? && |r.value| == |v.value.items| > 0
      && forall k | 0 <= k < |r.value| :: v.value.items[k] == RString(r.value[k]) && prim.isUrl(r.value[k])
    ensures v == Some(RArray([])) ==> r == Dirty([Issue(FieldPath("urls"), TooSmall, TooFewMessage)])
  {
    var item := (p, x) => ZUrl(prim, p, Some(x));
    assert forall p, x :: item(p, x).Good? <==> x.RString? && prim.isUrl(x.s);
    ZNonEmptyArray(FieldPath("urls"), v, item)
  }

  /** `photoBulkCreateSchema.safeParse(body)`. */
  function ParsePhotoBulk(prim: Primitives, body: Raw): (r: Parse<PhotoBulk>)
    ensures r.Parsed? <==>
      && body.RObject?
      && IntGiven(prim, body.fields, "catId")
      && "urls" in body.fields && UrlList(prim, body.fields["urls"])
      && IntAbsentOr(prim, body.fields, "startPosition")
    ensures r.Parsed? ==>
      && r.value.catId == IntOf(prim, body.fields["catId"])
      && |r.value.urls| == |body.fields["urls"].items|
      && (forall k | 0 <= k < |r.value.urls| ::
            body.fields["urls"].items[k] == RString(r.value.urls[k]) && prim.isUrl(r.value.urls[k]))
      && r.value.startPosition == IntOr(prim, body.fields, "startPosition", 0)
    ensures body.RObject? && Lookup(body.fields, "urls") == Some(RArray([])) ==>
      r.Thrown? || (r.Failed? && Issue(FieldPath("urls"), TooSmall, TooFewMessage) in r.issues)
    ensures r.Thrown? <==> body.RObject? && (IntThrows(prim, body.fields, "catId") || IntThrows(prim, body.fields, "startPosition"))
    ensures r.Thrown? ==> r.message == "Expected integer"
  {
    match body
    case RObject(f) =>
      var catId := IntField(prim, f, "catId");
      var urls := BulkUrls(prim, Lookup(f, "urls"));
      var start := IntDefault(prim, f, "startPosition", 0);
      var vs := [catId.Verdict(), urls.Verdict(), start.Verdict()];
      var all := catId.Good? && urls.Good? && start.Good?;
      Merge3(catId.Verdict(), urls.Verdict(), start.Verdict());
      Conclude(Merge(vs), if all then Some(PhotoBulk(catId.value, urls.value, start.value)) else None)
    case _ => Failed([NotAnObject(body)])
  }

  /* -------------------------------- Upload ------------------------------- */

  datatype PhotoUpload = PhotoUpload(catId: int, cover: bool, position: int)

  /** `photoUploadSchema.safeParse(fields)` on the text fields of a multipart upload. */
  function ParsePhotoUpload(prim: Primitives, body: Raw): (r: Parse<PhotoUpload>)
    ensures r.Parsed? <==>
      && body.RObject?
      && IntGiven(prim, body.fields, "catId")
      && BoolAbsentOr(body.fields, "cover")
      && IntAbsentOr(prim, body.fields, "position")
    ensures r.Parsed? ==> r.value == PhotoUpload(
      IntOf(prim, body.fields["catId"]), BoolOr(body.fields, "cover", false), IntOr(prim, body.fields, "position", 0))
    ensures r.Thrown? <==> body.RObject? && (IntThrows(prim, body.fields, "catId") || IntThrows(prim, body.fields, "position"))
    ensures r.Thrown? ==> r.message == "Expected integer"
    ensures body.RObject? && "catId" !in body.fields ==> r.Thrown? || (r.Failed? && UnionIssue(FieldPath("catId")) in r.issues)
  {
    match body
    case RObject(f) =>
      var catId := IntField(prim, f, "catId");
      var cover := BoolDefault(f, "cover", false);
      var position := IntDefault(prim, f, "position", 0);
      var vs := [catId.Verdict(), cover.Verdict(), position.Verdict()];
      var all := catId.Good? && cover.Good? && position.Good?;
      Merge3(catId.Verdict(), cover.Verdict(), position.Verdict());
      Conclude(Merge(vs), if all then Some(PhotoUpload(catId.value, cover.value, position.value)) else None)
    case _ => Failed([NotAnObject(body)])
  }

  datatype PhotoUploadBulk = PhotoUploadBulk(catId: int, startPosition: int)

  /** `photoUploadBulkSchema.safeParse(fields)`. */
  function ParsePhotoUploadBulk(prim: Primitives, body: Raw): (r: Parse<PhotoUploadBulk>)
    ensures r.Parsed? <==> body.RObject? && IntGiven(prim, body.fields, "catId") && IntAbsentOr(prim, body.fields, "startPosition")
    ensures r.Parsed? ==> r.value == PhotoUploadBulk(IntOf(prim, body.fields["catId"]), IntOr(prim, body.fields, "startPosition", 0))
    ensures r.Thrown? <==> body.RObject? && (IntThrows(prim, body.fields, "catId") || IntThrows(prim, body.fields, "startPosition"))
  {
    match body
    case RObject(f) =>
      var catId := IntField(prim, f, "catId");
      var start := IntDefault(prim, f, "startPosition", 0);
      var vs := [catId.Verdict(), start.Verdict()];
      Merge2(catId.Verdict(), start.Verdict());
      Conclude(Merge(vs), if catId.Good? && start.Good? then Some(PhotoUploadBulk(catId.value, start.value)) else None)
    case _ => Failed([NotAnObject(body)])
  }

  /* -------------------------------- Update ------------------------------- */

  /** The normalised update payload: only the fields it carries are `Some`. */
  datatype PhotoPatch = PhotoPatch(url: Option<string>, cover: Option<bool>, position: Option<int>)

  /** `photoUpdateSchema.safeParse(body)`: every field may be left out. */
  function ParsePhotoPatch(prim: Primitives, body: Raw): (r: Parse<PhotoPatch>)
    ensures r.Parsed? <==>
      && body.RObject?
      && ("url" in body.fields ==> body.fields["url"].RString? && prim.isUrl(body.fields["url"].s))
      && BoolAbsentOr(body.fields, "cover")
      && IntAbsentOr(prim, body.fields, "position")
    ensures r.Parsed? ==> r.value == PhotoPatch(
      if "url" in body.fields then Some(body.fields["url"].s) else None,
      if "cover" in body.fields then Some(BoolOf(body.fields["cover"])) else None,
      if "position" in body.fields then Some(IntOf(prim, body.fields["position"])) else None)
    ensures r.Thrown? <==> body.RObject? && IntThrows(prim, body.fields, "position")
  {
    match body
    case RObject(f) =>
      var url := OrUndefined(FieldPath("url"), Lookup(f, "url"), ZUrl(prim, FieldPath("url"), Lookup(f, "url")));
      var cover := OrUndefined(FieldPath("cover"), Lookup(f, "cover"), ZBool(FieldPath("cover"), Lookup(f, "cover")));
      var position := OrUndefined(FieldPath("position"), Lookup(f, "position"), IntField(prim, f, "position"));
      var vs := [url.Verdict(), cover.Verdict(), position.Verdict()];
      Merge3(url.Verdict(), cover.Verdict(), position.Verdict());
      Conclude(Merge(vs), if url.Good? && cover.Good? && position.Good? then Some(PhotoPatch(url.value, cover.value, position.value)) else None)
    case _ => Failed([NotAnObject(body)])
  }

  /* -------------------------------- Reorder ------------------------------ */

  datatype Placement = Placement(id: int, position: int)

  /** One element of the reorder list: an object with an integer `id` and an integer `position`. */
  function ZPlacement(prim: Primitives, path: Path, x: Raw): (r: Field<Placement>)
    ensures r.Good? <==> x.RObject? && IntGiven(prim, x.fields, "id") && IntGiven(prim, x.fields, "position")
    ensures r.Good? ==> r.value == Placement(IntOf(prim, x.fields["id"]), IntOf(prim, x.fields["position"]))
  {
    match x
    case RObject(g) =>
      var id := ZInt(prim, path + [Key("id")], Lookup(g, "id"));
      var position := ZInt(prim, path + [Key("position")], Lookup(g, "position"));
      var vs := [id.Verdict(), position.Verdict()];
      Merge2(id.Verdict(), position.Verdict());
      (match Merge(vs)
       case Clean => Good(Placement(id.value, position.value))
       case Flawed(xs) => Dirty(xs)
       case Broken(xs) => Bad(xs)
       case Raised(m) => Threw(m))
    case _ => Bad([TypeIssue(path, "object", Some(x))])
  }

  /** `photoReorderSchema.safeParse(body)`. */
  function ParseReorder(prim: Primitives, body: Raw): (r: Parse<seq<Placement>>)
    ensures r.Parsed? ==>
      && body.RObject? && "items" in body.fields && body.fields["items"].RArray?
      && |r.value| == |body.fields["items"].items| > 0
      && forall k | 0 <= k < |r.value| :: ZPlacement(prim, FieldPath("items") + [Index(k)], body.fields["items"].items[k]) == Good(r.value[k])
    ensures body.RObject? && "items" in body.fields && body.fields["items"].RArray? && |body.fields["items"].items| > 0 ==>
      (r.Parsed? <==> forall k | 0 <= k < |body.fields["items"].items| :: ZPlacement(prim, FieldPath("items") + [Index(k)], body.fields["items"].items[k]).Good?)
    ensures body.RObject? && Lookup(body.fields, "items") == Some(RArray([])) ==>
      r == Failed([Issue(FieldPath("items"), TooSmall, TooFewMessage)])
  {
    match body
    case RObject(f) =>
      var items := ZNonEmptyArray(FieldPath("items"), Lookup(f, "items"), (p, x) => ZPlacement(prim, p, x));
      var v := items.Verdict();
      Conclude(v, if items.Good? then Some(items.value) else None)
    case _ => Failed([NotAnObject(body)])
  }
}
