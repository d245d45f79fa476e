/**
 * The stored records: a Cat row and a Photo row, their enum domains and
 * defaults, and the relations between the two tables (a photo belongs to a
 * cat; a kitten refers to its father and mother, both cats).
 */
module Models {
  import opened Wrappers

  datatype Gender = Male | Female
  datatype CatType = Breeder | Kitten
  datatype Status = Available | Reserved | Sold

  /** The spellings of each enum, as the database column and the API accept them, in declaration order. */
  const GenderNames: seq<string> := ["male", "female"]
  const CatTypeNames: seq<string> := ["breeder", "kitten"]
  const StatusNames: seq<string> := ["available", "reserved", "sold"]

  function GenderName(g: Gender): (s: string)
    ensures s in GenderNames
  {
    match g
    case Male => "male"
    case Female => "female"
  }

  function GenderFrom(s: string): (g: Gender)
    ensures s in GenderNames ==> GenderName(g) == s
  {
    if s == "male" then Male else Female
  }

  function CatTypeName(t: CatType): (s: string)
    ensures s in CatTypeNames
  {
    match t
    case Breeder => "breeder"
    case Kitten => "kitten"
  }

  function CatTypeFrom(s: string): (t: CatType)
    ensures s in CatTypeNames ==> CatTypeName(t) == s
  {
    if s == "breeder" then Breeder else Kitten
  }

  function StatusName(st: Status): (s: string)
    ensures s in StatusNames
  {
    match st
    case Available => "available"
    case Reserved => "reserved"
    case Sold => "sold"
  }

  function StatusFrom(s: string): (st: Status)
    ensures s in StatusNames ==> StatusName(st) == s
  {
    if s == "available" then Available else if s == "reserved" then Reserved else Sold
  }

  /** The status a cat is created with when none is given. */
  const DefaultStatus: Status := Available

  /**
   * A row of the Cat table. `name`, `gender` and `type` (here `kind`) are
   * never null; the date, the parent references and the four free-text
   * parentage fields may be.
   */
  datatype Cat = Cat(
    id: int,
    name: string,
    gender: Gender,
    birthDate: Option<string>,
    status: Status,
    kind: CatType,
    fatherId: Option<int>,
    motherId: Option<int>,
    sireName: Option<string>,
    damName: Option<string>,
    sireRegistration: Option<string>,
    damRegistration: Option<string>)

  /** A row of the Photo table; `catId` is the foreign key to its cat. */
  datatype Photo = Photo(id: int, catId: int, url: string, publicId: Option<string>, cover: bool, position: int)

  /** The row the table stores for an insert that leaves `cover` or `position` unset. */
  function NewPhoto(id: int, catId: int, url: string, publicId: Option<string>, cover: Option<bool>, position: Option<int>): (p: Photo)
    ensures p.id == id && p.catId == catId && p.url == url && p.publicId == publicId
    ensures p.cover == (cover.Some? && cover.value)
    ensures p.position == if position.Some? then position.value else 0
  {
    Photo(id, catId, url, publicId, cover.GetOr(false), position.GetOr(0))
  }

  /** At most one photo of each cat is its cover. */
  predicate CoverUnique(photos: map<int, Photo>) {
    forall a, b | a in photos && b in photos && photos[a].cover && photos[b].cover && photos[a].catId == photos[b].catId :: a == b
  }

  /** Every photo belongs to an existing cat. */
  predicate PhotosBelong(photos: map<int, Photo>, cats: map<int, Cat>) {
    forall k | k in photos :: photos[k].catId in cats
  }

  /** A cat's father and mother, when set, are cats of the table. */
  predicate ParentsExist(cats: map<int, Cat>) {
    forall k | k in cats ::
      (cats[k].fatherId.Some? ==> cats[k].fatherId.value in cats) &&
      (cats[k].motherId.Some? ==> cats[k].motherId.value in cats)
  }

  /** Each table is keyed by the rows' own ids. */
  predicate KeyedById(cats: map<int, Cat>, photos: map<int, Photo>) {
    (forall k | k in cats :: cats[k].id == k) && (forall k | k in photos :: photos[k].id == k)
  }
}
