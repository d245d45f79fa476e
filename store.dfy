/**
 * The admin routes that write to the two tables: `POST /cats`, `PUT
 * /cats/:id`, `DELETE /cats/:id`, `POST /photos/upload`, `PATCH
 * /photos/:id`, `POST /photos/:id/set-cover` and `DELETE /photos/:id`, each
 * from the raw request to its answer. The database is the object's state;
 * the bulk statements a route issues are loops over the rows.
 */
module Store {
  import opened Wrappers
  import opened Models
  import opened Zod
  import opened CatSchemas
  import opened PhotoSchemas
  import opened Middleware
  import opened Tables

  const CatNotFound: string := "Cat not found"
  const PhotoNotFound: string := "Photo not found"
  const FileRequired: string := "file is required (multipart field 'file')"

  /** The message of the driver's error for a parent reference to no stored cat. */
  const ForeignKeyRefusal: string := "foreign key constraint fails"

  /** What the image host answers an upload: the stored image's address and id, or an error. */
  datatype UploadResult = Uploaded(secureUrl: string, publicId: string) | UploadFailed(message: string)

  /** Some element of a non-empty set: the next row a bulk statement visits. */
  method Pick<T>(s: set<T>) returns (x: T)
    requires s != {}
    ensures x in s
  {
    x :| x in s;
  }

  class Database {
    var cats: map<int, Cat>
    var photos: map<int, Photo>
    /** The next values of the two auto-increment counters. */
    var nextCatId: int
    var nextPhotoId: int

    predicate Valid()
      reads this
    {
      && Consistent(cats, photos)
      && (forall k | k in cats :: k < nextCatId)
      && (forall k | k in photos :: k < nextPhotoId)
    }

    constructor ()
      ensures Valid() && cats == map[] && photos == map[] && nextCatId == 1 && nextPhotoId == 1
    {
      cats := map[];
      photos := map[];
      nextCatId := 1;
      nextPhotoId := 1;
    }

    /* --------------------------- Bulk statements -------------------------- */

    /** `UPDATE Photos SET cover = false WHERE catId = catId AND id <> except`, row by row. */
    method ClearOtherCovers(catId: int, except: int)
      modifies this
      ensures photos == ClearCovers(old(photos), catId, except)
      ensures cats == old(cats) && nextCatId == old(nextCatId) && nextPhotoId == old(nextPhotoId)
    {
      ghost var start := photos;
      var todo := photos.Keys;
      while todo != {}
        invariant todo <= start.Keys && photos.Keys == start.Keys
        invariant forall k | k in photos :: photos[k] == if k in todo then start[k] else Uncover(k, start[k], catId, except)
        invariant cats == old(cats) && nextCatId == old(nextCatId) && nextPhotoId == old(nextPhotoId)
        decreases todo
      {
        var k := Pick(todo);
        if photos[k].catId == catId && k != except {
          photos := photos[k := photos[k].(cover := false)];
        }
        todo := todo - {k};
      }
      assert photos == ClearCovers(start, catId, except);
    }

    /** `ON DELETE CASCADE` from the cat to its photos, row by row. */
    method DeletePhotosOf(catId: int)
      modifies this
      ensures photos == WithoutPhotosOf(old(photos), catId)
      ensures cats == old(cats) && nextCatId == old(nextCatId) && nextPhotoId == old(nextPhotoId)
    {
      ghost var start := photos;
      var todo := photos.Keys;
      while todo != {}
        invariant todo <= start.Keys
        invariant forall k | k in photos :: k in start && photos[k] == start[k]
        invariant forall k | k in start && (k in todo || start[k].catId != catId) :: k in photos
        invariant forall k | k in photos && k !in todo :: start[k].catId != catId
        invariant cats == old(cats) && nextCatId == old(nextCatId) && nextPhotoId == old(nextPhotoId)
        decreases todo
      {
        var k := Pick(todo);
        if photos[k].catId == catId {
          photos := photos - {k};
        }
        todo := todo - {k};
      }
      ghost var w := WithoutPhotosOf(start, catId);
      forall k | k in photos
        ensures k in w && w[k] == photos[k]
      {
        assert start[k].catId != catId;
      }
      forall k | k in w
        ensures k in photos
      {
        assert k in start && start[k].catId != catId;
      }
      assert photos.Keys == w.Keys;
      assert photos == WithoutPhotosOf(start, catId);
    }

    /** `ON DELETE SET NULL` from the parent references to the deleted cat, row by row. */
    method UnlinkParent(gone: int)
      modifies this
      ensures cats == Unlinked(old(cats), gone)
      ensures photos == old(photos) && nextCatId == old(nextCatId) && nextPhotoId == old(nextPhotoId)
    {
      ghost var start := cats;
      var todo := cats.Keys;
      while todo != {}
        invariant todo <= start.Keys && cats.Keys == start.Keys
        invariant forall k | k in cats :: cats[k] == if k in todo then start[k] else Unlink(start[k], gone)
        invariant photos == old(photos) && nextCatId == old(nextCatId) && nextPhotoId == old(nextPhotoId)
        decreases todo
      {
        var k := Pick(todo);
        cats := cats[k := Unlink(cats[k], gone)];
        todo := todo - {k};
      }
      assert forall k | k in cats :: cats[k] == Unlinked(start, gone)[k];
      assert cats == Unlinked(start, gone);
    }

    /* ------------------------------ Cat routes ---------------------------- */

    /**
     * `POST /cats`: a body the schema refuses changes nothing; a parent
     * reference to no stored cat is the database's error; otherwise a new row
     * is inserted under the next id and answered with 201.
     */
    method CreateCat(prim: Primitives, body: Raw) returns (r: Outcome<Cat>)
      requires Valid()
      modifies this
      ensures Valid()
      ensures Validate(ParseCatCreate(prim, body)).Raise? ==>
        r == Fail(Validate(ParseCatCreate(prim, body)).error) && unchanged(this)
      ensures Validate(ParseCatCreate(prim, body)).Continue? ==>
        var d := Validate(ParseCatCreate(prim, body)).body;
        if ParentsKnown(old(cats), d.fatherId, d.motherId) then
          && r == Answer(201, MakeCat(old(nextCatId), d))
          && cats == old(cats)[old(nextCatId) := MakeCat(old(nextCatId), d)]
          && photos == old(photos) && nextCatId == old(nextCatId) + 1 && nextPhotoId == old(nextPhotoId)
        else r == Fail(Plain(ForeignKeyRefusal)) && unchanged(this)
    {
      var n := Validate(ParseCatCreate(prim, body));
      if n.Raise? {
        return Fail(n.error);
      }
      r := InsertCat(n.body);
    }

    /** A validated cat inserted under the next id, the database checking its parent references. */
    method InsertCat(d: CatDraft) returns (r: Outcome<Cat>)
      requires Valid()
      modifies this
      ensures Valid()
      ensures ParentsKnown(old(cats), d.fatherId, d.motherId) ==>
        && r == Answer(201, MakeCat(old(nextCatId), d))
        && cats == old(cats)[old(nextCatId) := MakeCat(old(nextCatId), d)]
        && photos == old(photos) && nextCatId == old(nextCatId) + 1 && nextPhotoId == old(nextPhotoId)
      ensures !ParentsKnown(old(cats), d.fatherId, d.motherId) ==> r == Fail(Plain(ForeignKeyRefusal)) && unchanged(this)
    {
      if !ParentsKnown(cats, d.fatherId, d.motherId) {
        return Fail(Plain(ForeignKeyRefusal));
      }
      var c := MakeCat(nextCatId, d);
      CreateCatConsistent(cats, photos, nextCatId, d);
      cats := cats[nextCatId := c];
      nextCatId := nextCatId + 1;
      r := Answer(201, c);
    }

    /**
     * `PUT /cats/:id`: the body is checked first; then an unknown id is 404; a
     * parent reference to no stored cat is the database's error; otherwise the
     * patch is applied to that row alone and the row is answered.
     */
    method UpdateCat(prim: Primitives, id: int, body: Raw) returns (r: Outcome<Cat>)
      requires Valid()
      modifies this
      ensures Valid()
      ensures Validate(ParseCatUpdate(prim, body)).Raise? ==>
        r == Fail(Validate(ParseCatUpdate(prim, body)).error) && unchanged(this)
      ensures Validate(ParseCatUpdate(prim, body)).Continue? && id !in old(cats) ==>
        r == Fail(Boom(CatNotFound, 404)) && unchanged(this)
      ensures Validate(ParseCatUpdate(prim, body)).Continue? && id in old(cats) ==>
        var p := Validate(ParseCatUpdate(prim, body)).body;
        if ParentsKnown(old(cats), p.fatherId, p.motherId) then
          && r == Answer(200, Patched(old(cats)[id], p))
          && cats == old(cats)[id := Patched(old(cats)[id], p)]
          && photos == old(photos) && nextCatId == old(nextCatId) && nextPhotoId == old(nextPhotoId)
        else r == Fail(Plain(ForeignKeyRefusal)) && unchanged(this)
    {
      var n := Validate(ParseCatUpdate(prim, body));
      if n.Raise? {
        return Fail(n.error);
      }
      if id !in cats {
        return Fail(Boom(CatNotFound, 404));
      }
      r := PatchCat(id, n.body);
    }

    /** A patch applied to a stored cat, the database checking its parent references. */
    method PatchCat(id: int, p: CatPatch) returns (r: Outcome<Cat>)
      requires Valid() && id in cats
      modifies this
      ensures Valid()
      ensures ParentsKnown(old(cats), p.fatherId, p.motherId) ==>
        && r == Answer(200, Patched(old(cats)[id], p))
        && cats == old(cats)[id := Patched(old(cats)[id], p)]
        && photos == old(photos) && nextCatId == old(nextCatId) && nextPhotoId == old(nextPhotoId)
      ensures !ParentsKnown(old(cats), p.fatherId, p.motherId) ==> r == Fail(Plain(ForeignKeyRefusal)) && unchanged(this)
    {
      if !ParentsKnown(cats, p.fatherId, p.motherId) {
        return Fail(Plain(ForeignKeyRefusal));
      }
      var c := Patched(cats[id], p);
      UpdateCatConsistent(cats, photos, id, p);
      cats := cats[id := c];
      r := Answer(200, c);
    }

    /**
     * `DELETE /cats/:id`: an unknown id is 404; otherwise the row goes, with
     * its photos, and every reference to it as a father or mother becomes NULL.
     */
    method DeleteCat(id: int) returns (r: Outcome<string>)
      requires Valid()
      modifies this
      ensures Valid()
      ensures id !in old(cats) ==> r == Fail(Boom(CatNotFound, 404)) && unchanged(this)
      ensures id in old(cats) ==>
        && r == Answer(200, "Cat deleted")
        && cats == Unlinked(old(cats) - {id}, id)
        && photos == WithoutPhotosOf(old(photos), id)
        && nextCatId == old(nextCatId) && nextPhotoId == old(nextPhotoId)
    {
      if id !in cats {
        return Fail(Boom(CatNotFound, 404));
      }
      DeleteCatConsistent(cats, photos, id);
      ghost var before := cats;
      cats := cats - {id};
      DeletePhotosOf(id);
      UnlinkParent(id);
      assert cats == Unlinked(before - {id}, id);
      r := Answer(200, "Cat deleted");
    }

    /* ----------------------------- Photo routes --------------------------- */

    /**
     * `POST /photos/upload`: the text fields are checked first; then a missing
     * file is 400 and an unknown cat 404, both before anything is sent to the
     * image host; a failed upload is its error; otherwise the photo is
     * inserted under the next id and, when it is a cover, the other photos of
     * its cat lose theirs. `file` says whether the request carried a file and
     * `upload` is what the image host answers for it.
     */
    method UploadPhoto(prim: Primitives, body: Raw, file: bool, upload: UploadResult) returns (r: Outcome<Photo>)
      requires Valid()
      modifies this
      ensures Valid()
      ensures Validate(ParsePhotoUpload(prim, body)).Raise? ==>
        r == Fail(Validate(ParsePhotoUpload(prim, body)).error) && unchanged(this)
      ensures Validate(ParsePhotoUpload(prim, body)).Continue? && !file ==>
        r == Fail(Boom(FileRequired, 400)) && unchanged(this)
      ensures Validate(ParsePhotoUpload(prim, body)).Continue? && file && Validate(ParsePhotoUpload(prim, body)).body.catId !in old(cats) ==>
        r == Fail(Boom(CatNotFound, 404)) && unchanged(this)
      ensures Validate(ParsePhotoUpload(prim, body)).Continue? && file && Validate(ParsePhotoUpload(prim, body)).body.catId in old(cats) ==>
        var u := Validate(ParsePhotoUpload(prim, body)).body;
        match upload
        case UploadFailed(m) => r == Fail(Plain(m)) && unchanged(this)
        case Uploaded(url, publicId) =>
          var ph := NewPhoto(old(nextPhotoId), u.catId, url, Some(publicId), Some(u.cover), Some(u.position));
          && r == Answer(201, ph)
          && photos == AddPhoto(old(photos), ph)
          && cats == old(cats) && nextCatId == old(nextCatId) && nextPhotoId == old(nextPhotoId) + 1
    {
      var n := Validate(ParsePhotoUpload(prim, body));
      if n.Raise? {
        return Fail(n.error);
      }
      var u := n.body;
      if !file {
        return Fail(Boom(FileRequired, 400));
      }
      if u.catId !in cats {
        return Fail(Boom(CatNotFound, 404));
      }
      r := InsertPhoto(u, upload);
    }

    /** A validated upload of a file for a stored cat: the image host's answer, then the insert. */
    method InsertPhoto(u: PhotoUpload, upload: UploadResult) returns (r: Outcome<Photo>)
      requires Valid() && u.catId in cats
      modifies this
      ensures Valid()
      ensures upload.UploadFailed? ==> r == Fail(Plain(upload.message)) && unchanged(this)
      ensures upload.Uploaded? ==>
        var ph := NewPhoto(old(nextPhotoId), u.catId, upload.secureUrl, Some(upload.publicId), Some(u.cover), Some(u.position));
        && r == Answer(201, ph)
        && photos == AddPhoto(old(photos), ph)
        && cats == old(cats) && nextCatId == old(nextCatId) && nextPhotoId == old(nextPhotoId) + 1
    {
      if upload.UploadFailed? {
        return Fail(Plain(upload.message));
      }
      var ph := NewPhoto(nextPhotoId, u.catId, upload.secureUrl, Some(upload.publicId), Some(u.cover), Some(u.position));
      AddPhotoConsistent(cats, photos, ph);
      ghost var before := photos;
      photos := photos[ph.id := ph];
      nextPhotoId := nextPhotoId + 1;
      if ph.cover {
        ClearOtherCovers(ph.catId, ph.id);
        assert photos == ClearCovers(before, ph.catId, ph.id)[ph.id := ph];
      }
      r := Answer(201, ph);
    }

    /**
     * `PATCH /photos/:id`: the body is checked first; then an unknown id is
     * 404; otherwise the patch is applied, and a patch that makes the photo a
     * cover first takes the cover away from the other photos of its cat.
     */
    method PatchPhoto(prim: Primitives, id: int, body: Raw) returns (r: Outcome<Photo>)
      requires Valid()
      modifies this
      ensures Valid()
      ensures Validate(ParsePhotoPatch(prim, body)).Raise? ==>
        r == Fail(Validate(ParsePhotoPatch(prim, body)).error) && unchanged(this)
      ensures Validate(ParsePhotoPatch(prim, body)).Continue? && id !in old(photos) ==>
        r == Fail(Boom(PhotoNotFound, 404)) && unchanged(this)
      ensures Validate(ParsePhotoPatch(prim, body)).Continue? && id in old(photos) ==>
        var p := Validate(ParsePhotoPatch(prim, body)).body;
        && r == Answer(200, PatchedPhoto(old(photos)[id], p))
        && photos == PatchPhotos(old(photos), id, p)
        && cats == old(cats) && nextCatId == old(nextCatId) && nextPhotoId == old(nextPhotoId)
    {
      var n := Validate(ParsePhotoPatch(prim, body));
      if n.Raise? {
        return Fail(n.error);
      }
      if id !in photos {
        return Fail(Boom(PhotoNotFound, 404));
      }
      r := ApplyPatch(id, n.body);
    }

    /** A patch applied to a stored photo, cover first. */
    method ApplyPatch(id: int, p: PhotoPatch) returns (r: Outcome<Photo>)
      requires Valid() && id in photos
      modifies this
      ensures Valid()
      ensures r == Answer(200, PatchedPhoto(old(photos)[id], p))
      ensures photos == PatchPhotos(old(photos), id, p)
      ensures cats == old(cats) && nextCatId == old(nextCatId) && nextPhotoId == old(nextPhotoId)
    {
      PatchPhotoConsistent(cats, photos, id, p);
      ghost var before := photos;
      var ph := photos[id];
      if p.cover == Some(true) {
        ClearOtherCovers(ph.catId, id);
      }
      var patched := PatchedPhoto(ph, p);
      photos := photos[id := patched];
      assert photos == PatchPhotos(before, id, p);
      r := Answer(200, patched);
    }

    /** `POST /photos/:id/set-cover`: an unknown id is 404; otherwise the photo becomes its cat's only cover. */
    method SetCover(id: int) returns (r: Outcome<(string, Photo)>)
      requires Valid()
      modifies this
      ensures Valid()
      ensures id !in old(photos) ==> r == Fail(Boom(PhotoNotFound, 404)) && unchanged(this)
      ensures id in old(photos) ==>
        && r == Answer(200, ("Cover updated", old(photos)[id].(cover := true)))
        && photos == PatchPhotos(old(photos), id, MakeCover)
        && cats == old(cats) && nextCatId == old(nextCatId) && nextPhotoId == old(nextPhotoId)
    {
      if id !in photos {
        return Fail(Boom(PhotoNotFound, 404));
      }
      var a := ApplyPatch(id, MakeCover);
      r := Answer(200, ("Cover updated", a.body));
    }

    /**
     * `DELETE /photos/:id`: an unknown id is 404; otherwise the row goes. The
     * image host's copy is deleted on a best-effort basis whose failure the
     * answer never shows, so it leaves no trace here.
     */
    method DeletePhoto(id: int) returns (r: Outcome<string>)
      requires Valid()
      modifies this
      ensures Valid()
      ensures id !in old(photos) ==> r == Fail(Boom(PhotoNotFound, 404)) && unchanged(this)
      ensures id in old(photos) ==>
        && r == Answer(200, "Photo deleted")
        && photos == old(photos) - {id}
        && cats == old(cats) && nextCatId == old(nextCatId) && nextPhotoId == old(nextPhotoId)
    {
      if id !in photos {
        return Fail(Boom(PhotoNotFound, 404));
      }
      DeletePhotoConsistent(cats, photos, id);
      photos := photos - {id};
      r := Answer(200, "Photo deleted");
    }
  }
}
