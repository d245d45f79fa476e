/**
 * The Cat and Photo tables as values, and what each write of the routes
 * does to them: an insert, a partial update, the bulk `UPDATE ... SET cover
 * = false`, and the deletions with their foreign-key actions (the photos of
 * a deleted cat are deleted, references to it as a parent become NULL).
 */
module Tables {
  import opened Wrappers
  import opened Models
  import opened CatSchemas
  import opened PhotoSchemas

  /* ------------------------------ Cats ---------------------------------- */

  /** The row `Cat.create(draft)` inserts under `id`: the draft as given, `available` when no status is given. */
  function MakeCat(id: int, d: CatDraft): (c: Cat)
    ensures c.id == id
    ensures d.status.None? ==> c.status == DefaultStatus
    ensures d.status.Some? ==> c.status == d.status.value
    ensures c.name == d.name && c.gender == d.gender && c.kind == d.kind && c.birthDate == d.birthDate
    ensures c.fatherId == d.fatherId && c.motherId == d.motherId
    ensures c.sireName == d.sireName && c.damName == d.damName
    ensures c.sireRegistration == d.sireRegistration && c.damRegistration == d.damRegistration
  {
    Cat(id, d.name, d.gender, d.birthDate, d.status.GetOr(DefaultStatus), d.kind, d.fatherId, d.motherId,
      d.sireName, d.damName, d.sireRegistration, d.damRegistration)
  }

  /** The foreign keys of a write: a parent reference that is set must name a stored cat. */
  predicate ParentsKnown(cats: map<int, Cat>, fatherId: Option<int>, motherId: Option<int>) {
    (fatherId.Some? ==> fatherId.value in cats) && (motherId.Some? ==> motherId.value in cats)
  }

  /** `cat.update(patch)`: the fields the patch carries are replaced, every other column keeps its value. */
  function Patched(c: Cat, p: CatPatch): (r: Cat)
    ensures r.id == c.id
    ensures p.name.None? ==> r.name == c.name
    ensures p.name.Some? ==> r.name == p.name.value
    ensures p.gender.None? ==> r.gender == c.gender
    ensures p.gender.Some? ==> r.gender == p.gender.value
    ensures p.birthDate.None? ==> r.birthDate == c.birthDate
    ensures p.birthDate.Some? ==> r.birthDate == p.birthDate
    ensures p.status.None? ==> r.status == c.status
    ensures p.status.Some? ==> r.status == p.status.value
    ensures p.kind.None? ==> r.kind == c.kind
    ensures p.kind.Some? ==> r.kind == p.kind.value
    ensures p.fatherId.None? ==> r.fatherId == c.fatherId
    ensures p.fatherId.Some? ==> r.fatherId == p.fatherId
    ensures p.motherId.None? ==> r.motherId == c.motherId
    ensures p.motherId.Some? ==> r.motherId == p.motherId
    ensures p.sireName.None? ==> r.sireName == c.sireName
    ensures p.sireName.Some? ==> r.sireName == p.sireName
    ensures p.damName.None? ==> r.damName == c.damName
    ensures p.damName.Some? ==> r.damName == p.damName
    ensures p.sireRegistration.None? ==> r.sireRegistration == c.sireRegistration
    ensures p.sireRegistration.Some? ==> r.sireRegistration == p.sireRegistration
    ensures p.damRegistration.None? ==> r.damRegistration == c.damRegistration
    ensures p.damRegistration.Some? ==> r.damRegistration == p.damRegistration
  {
    Cat(c.id, Given(p.name, c.name), Given(p.gender, c.gender), GivenOr(p.birthDate, c.birthDate),
      Given(p.status, c.status), Given(p.kind, c.kind),
      GivenOr(p.fatherId, c.fatherId), GivenOr(p.motherId, c.motherId),
      GivenOr(p.sireName, c.sireName), GivenOr(p.damName, c.damName),
      GivenOr(p.sireRegistration, c.sireRegistration), GivenOr(p.damRegistration, c.damRegistration))
  }

  /** A non-null column under an update: the given value, or the current one. */
  function Given<T>(given: Option<T>, current: T): (r: T)
    ensures given.Some? ==> r == given.value
    ensures given.None? ==> r == current
  {
    given.GetOr(current)
  }

  /** A nullable column under an update: the given value, or the current one. */
  function GivenOr<T>(given: Option<T>, current: Option<T>): (r: Option<T>)
    ensures given.Some? ==> r == given
    ensures given.None? ==> r == current
  {
    if given.Some? then given else current
  }

  const EmptyPatch: CatPatch := CatPatch(None, None, None, None, None, None, None, None, None, None, None)

  /** An empty patch changes nothing, and applying the same patch twice is applying it once. */
  lemma PatchLaws(c: Cat, p: CatPatch)
    ensures Patched(c, EmptyPatch) == c
    ensures Patched(Patched(c, p), p) == Patched(c, p)
  {
  }

  /** Nothing but the references to `gone` changes: those become NULL (`ON DELETE SET NULL`). */
  function Unlinked(cats: map<int, Cat>, gone: int): (r: map<int, Cat>)
    ensures r.Keys == cats.Keys
    ensures forall k | k in r :: r[k].fatherId != Some(gone) && r[k].motherId != Some(gone)
    ensures forall k | k in r && cats[k].fatherId != Some(gone) :: r[k].fatherId == cats[k].fatherId
    ensures forall k | k in r && cats[k].motherId != Some(gone) :: r[k].motherId == cats[k].motherId
    ensures forall k | k in r :: r[k].(fatherId := cats[k].fatherId, motherId := cats[k].motherId) == cats[k]
  {
    map k | k in cats :: Unlink(cats[k], gone)
  }

  function Unlink(c: Cat, gone: int): Cat {
    c.(fatherId := if c.fatherId == Some(gone) then None else c.fatherId,
       motherId := if c.motherId == Some(gone) then None else c.motherId)
  }

  /* ----------------------------- Photos --------------------------------- */

  /** One row under `UPDATE Photos SET cover = false WHERE catId = catId AND id <> except`. */
  function Uncover(k: int, p: Photo, catId: int, except: int): Photo {
    if p.catId == catId && k != except then p.(cover := false) else p
  }

  /** The whole table under that statement: no other photo of the cat is a cover any more, nothing else changes. */
  function ClearCovers(photos: map<int, Photo>, catId: int, except: int): (r: map<int, Photo>)
    ensures r.Keys == photos.Keys
    ensures forall k | k in r && k != except && r[k].catId == catId :: !r[k].cover
    ensures forall k | k in r :: r[k].(cover := photos[k].cover) == photos[k]
    ensures forall k | k in r && (k == except || photos[k].catId != catId) :: r[k] == photos[k]
  {
    map k | k in photos :: Uncover(k, photos[k], catId, except)
  }

  /** The photo with the patch's url, cover and position where it carries them. */
  function PatchedPhoto(ph: Photo, p: PhotoPatch): (r: Photo)
    ensures r.id == ph.id && r.catId == ph.catId && r.publicId == ph.publicId
    ensures p.url.None? ==> r.url == ph.url
    ensures p.cover.None? ==> r.cover == ph.cover
    ensures p.position.None? ==> r.position == ph.position
    ensures p.url.Some? ==> r.url == p.url.value
    ensures p.cover.Some? ==> r.cover == p.cover.value
    ensures p.position.Some? ==> r.position == p.position.value
  {
    Photo(ph.id, ph.catId, p.url.GetOr(ph.url), ph.publicId, p.cover.GetOr(ph.cover), p.position.GetOr(ph.position))
  }

  /**
   * The table after `PATCH /photos/:id`: a patch that makes the photo a cover
   * first takes the cover away from every other photo of its cat.
   */
  function PatchPhotos(photos: map<int, Photo>, id: int, p: PhotoPatch): (r: map<int, Photo>)
    requires id in photos
    ensures r.Keys == photos.Keys
    ensures r[id] == PatchedPhoto(photos[id], p)
    ensures p.cover == Some(true) ==> r[id].cover
    ensures p.cover == Some(true) ==> forall k | k in r && r[k].catId == r[id].catId && r[k].cover :: k == id
    ensures forall k | k in r && k != id :: r[k].(cover := photos[k].cover) == photos[k]
    ensures p.cover != Some(true) ==> forall k | k in r && k != id :: r[k] == photos[k]
    ensures forall k | k in r && photos[k].catId != photos[id].catId :: r[k] == photos[k]
    ensures forall k | k in r :: r[k].catId == photos[k].catId && r[k].id == photos[k].id
    ensures CoverUnique(photos) ==> CoverUnique(r)
  {
    var patched := PatchedPhoto(photos[id], p);
    if p.cover == Some(true) then ClearCovers(photos, photos[id].catId, id)[id := patched]
    else photos[id := patched]
  }

  /** The patch `photo.update({ cover: true })` applies. */
  const MakeCover: PhotoPatch := PhotoPatch(None, Some(true), None)

  /** `POST /photos/:id/set-cover`: the photo becomes the only cover of its cat; other cats' photos are untouched. */
  lemma SetCoverSpec(photos: map<int, Photo>, id: int)
    requires id in photos
    ensures var r := PatchPhotos(photos, id, MakeCover);
      && r[id] == photos[id].(cover := true)
      && (forall k | k in r && r[k].catId == photos[id].catId :: r[k].cover <==> k == id)
      && (forall k | k in r :: r[k].(cover := photos[k].cover) == photos[k])
  {
    var r := PatchPhotos(photos, id, MakeCover);
    forall k | k in r && r[k].catId == photos[id].catId
      ensures r[k].cover <==> k == id
    {
      assert r[id].catId == photos[id].catId;
    }
    forall k | k in r
      ensures r[k].(cover := photos[k].cover) == photos[k]
    {
      if k != id {
        assert r[k] == ClearCovers(photos, photos[id].catId, id)[k];
      }
    }
  }

  /**
   * The table after an upload creates `ph`: the new row, and when it is a
   * cover, no other photo of its cat is one any more.
   */
  function AddPhoto(photos: map<int, Photo>, ph: Photo): (r: map<int, Photo>)
    requires ph.id !in photos
    ensures r.Keys == photos.Keys + {ph.id}
    ensures r[ph.id] == ph
    ensures ph.cover ==> forall k | k in r && r[k].catId == ph.catId && r[k].cover :: k == ph.id
    ensures !ph.cover ==> forall k | k in photos :: r[k] == photos[k]
    ensures forall k | k in photos :: r[k].(cover := photos[k].cover) == photos[k]
    ensures CoverUnique(photos) ==> CoverUnique(r)
  {
    if ph.cover then ClearCovers(photos, ph.catId, ph.id)[ph.id := ph] else photos[ph.id := ph]
  }

  /** `ON DELETE CASCADE`: exactly the photos of the deleted cat go. */
  function WithoutPhotosOf(photos: map<int, Photo>, catId: int): (r: map<int, Photo>)
    ensures forall k | k in r :: k in photos && photos[k].catId != catId && r[k] == photos[k]
    ensures forall k | k in photos && photos[k].catId != catId :: k in r
  {
    map k | k in photos && photos[k].catId != catId :: photos[k]
  }

  /* ---------------------------- Invariants ------------------------------ */

  /** The relations the two tables keep: rows keyed by id, photos of stored cats, parents stored, one cover per cat. */
  predicate Consistent(cats: map<int, Cat>, photos: map<int, Photo>) {
    KeyedById(cats, photos) && PhotosBelong(photos, cats) && ParentsExist(cats) && CoverUnique(photos)
  }

  /** Inserting a cat whose parent references are known keeps the tables consistent. */
  lemma CreateCatConsistent(cats: map<int, Cat>, photos: map<int, Photo>, id: int, d: CatDraft)
    requires Consistent(cats, photos) && id !in cats && ParentsKnown(cats, d.fatherId, d.motherId)
    ensures Consistent(cats[id := MakeCat(id, d)], photos)
  {
  }

  /** Patching a stored cat with known parent references keeps the tables consistent. */
  lemma UpdateCatConsistent(cats: map<int, Cat>, photos: map<int, Photo>, id: int, p: CatPatch)
    requires Consistent(cats, photos) && id in cats && ParentsKnown(cats, p.fatherId, p.motherId)
    ensures Consistent(cats[id := Patched(cats[id], p)], photos)
  {
    var r := cats[id := Patched(cats[id], p)];
    forall k | k in r
      ensures (r[k].fatherId.Some? ==> r[k].fatherId.value in r) && (r[k].motherId.Some? ==> r[k].motherId.value in r)
    {
      if k == id {
        assert r[k] == Patched(cats[id], p);
      }
    }
  }

  /** Deleting a cat with its foreign-key actions keeps the tables consistent, and nothing refers to it afterwards. */
  lemma DeleteCatConsistent(cats: map<int, Cat>, photos: map<int, Photo>, id: int)
    requires Consistent(cats, photos) && id in cats
    ensures var cats' := Unlinked(cats - {id}, id);
      var photos' := WithoutPhotosOf(photos, id);
      && Consistent(cats', photos')
      && id !in cats'
      && (forall k | k in photos' :: photos'[k].catId != id)
      && (forall k | k in cats' :: cats'[k].fatherId != Some(id) && cats'[k].motherId != Some(id))
  {
    var cats' := Unlinked(cats - {id}, id);
    var photos' := WithoutPhotosOf(photos, id);
    forall k | k in cats'
      ensures (cats'[k].fatherId.Some? ==> cats'[k].fatherId.value in cats') && (cats'[k].motherId.Some? ==> cats'[k].motherId.value in cats')
    {
      assert cats'[k].(fatherId := cats[k].fatherId, motherId := cats[k].motherId) == cats[k];
    }
    forall k | k in cats'
      ensures cats'[k].id == k
    {
      assert cats'[k].(fatherId := cats[k].fatherId, motherId := cats[k].motherId) == cats[k];
    }
  }

  /** Patching a photo, or making it the cover, keeps the tables consistent. */
  lemma PatchPhotoConsistent(cats: map<int, Cat>, photos: map<int, Photo>, id: int, p: PhotoPatch)
    requires Consistent(cats, photos) && id in photos
    ensures Consistent(cats, PatchPhotos(photos, id, p))
  {
  }

  /** Adding a fresh photo of a stored cat keeps the tables consistent. */
  lemma AddPhotoConsistent(cats: map<int, Cat>, photos: map<int, Photo>, ph: Photo)
    requires Consistent(cats, photos) && ph.id !in photos && ph.catId in cats
    ensures Consistent(cats, AddPhoto(photos, ph))
  {
    var r := AddPhoto(photos, ph);
    forall k | k in r
      ensures r[k].id == k && r[k].catId in cats
    {
      if k != ph.id {
        assert r[k].(cover := photos[k].cover) == photos[k];
      }
    }
  }

  /** Removing a photo keeps the tables consistent. */
  lemma DeletePhotoConsistent(cats: map<int, Cat>, photos: map<int, Photo>, id: int)
    requires Consistent(cats, photos)
    ensures Consistent(cats, photos - {id})
  {
  }
}
