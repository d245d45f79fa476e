/**
 * The two public listings, `GET /cats` and `GET /photos`: the page and limit
 * clamps, the filters, the order taken from the `sort` parameter, the page
 * window, and the `meta` block that goes with it.
 *
 * The database is represented by the rows of the table in storage order and
 * by a `Columns` value saying which column names it knows and how each column
 * ranks a row.
 */
module Listing {
  import opened Wrappers
  import opened Models
  import opened Zod
  import opened CatSchemas
  import opened PhotoSchemas
  import opened Middleware

  /* ------------------------ Page arithmetic ----------------------------- */

  const DefaultPage: int := 1
  const DefaultLimit: int := 20
  const MaxLimit: int := 100

  /** The page size actually used: the requested limit (20 when absent) clamped to 1..100. */
  function EffectiveLimit(limit: Option<int>): (l: int)
    ensures 1 <= l <= MaxLimit
    ensures limit.None? ==> l == DefaultLimit
    ensures limit.Some? && 1 <= limit.value <= MaxLimit ==> l == limit.value
    ensures limit.Some? && limit.value < 1 ==> l == 1
    ensures limit.Some? && limit.value > MaxLimit ==> l == MaxLimit
  {
    var n := limit.GetOr(DefaultLimit);
    if n < 1 then 1 else if n > MaxLimit then MaxLimit else n
  }

  /** The page actually served: the requested page (1 when absent), at least 1; there is no upper bound. */
  function EffectivePage(page: Option<int>): (p: int)
    ensures p >= 1
    ensures page.Some? && page.value >= 1 ==> p == page.value
    ensures page.None? || page.value < 1 ==> p == DefaultPage
  {
    var n := page.GetOr(DefaultPage);
    if n < 1 then 1 else n
  }

  /** The number of rows skipped before page `page`. */
  function Offset(page: int, limit: int): (o: nat)
    requires page >= 1 && limit >= 1
    ensures o % limit == 0 && o / limit == page - 1
  {
    WholePages(page - 1, limit);
    (page - 1) * limit
  }

  /** `n` whole pages of `limit` rows divide into exactly `n` pages. */
  lemma WholePages(n: nat, limit: int)
    requires limit >= 1
    ensures (n * limit) % limit == 0 && (n * limit) / limit == n
  {
    var o := n * limit;
    var d, r := o / limit, o % limit;
    assert o == d * limit + r && 0 <= r < limit;
    assert (n - d) * limit == r;
    if n - d >= 1 {
      MultiplyMonotonic(1, n - d, limit);
    } else if n - d <= -1 {
      MultiplyMonotonic(n - d, -1, limit);
    }
  }

  /** `Math.ceil(total / limit)`: the fewest pages of `limit` rows that hold `total` rows. */
  function TotalPages(total: nat, limit: int): (n: nat)
    requires limit >= 1
    ensures total <= n * limit
    ensures n == 0 || (n - 1) * limit < total
    ensures n == 0 <==> total == 0
  {
    var n := (total + limit - 1) / limit;
    CeilingDivision(total, limit);
    n
  }

  lemma CeilingDivision(total: nat, limit: int)
    requires limit >= 1
    ensures var n := (total + limit - 1) / limit;
      n >= 0 && total <= n * limit && (n == 0 || (n - 1) * limit < total) && (n == 0 <==> total == 0)
  {
    var n := (total + limit - 1) / limit;
    var r := (total + limit - 1) % limit;
    assert total + limit - 1 == n * limit + r;
    assert (n - 1) * limit == n * limit - limit;
  }

  /** Row `i` of a listing of `total` rows is served on page `i / limit + 1`, which is one of the `TotalPages` pages. */
  lemma RowPage(i: nat, total: nat, limit: int)
    requires limit >= 1 && i < total
    ensures var p := i / limit + 1;
      1 <= p <= TotalPages(total, limit) && Offset(p, limit) <= i < Offset(p, limit) + limit
  {
    var p := i / limit + 1;
    var n := TotalPages(total, limit);
    assert i == (i / limit) * limit + i % limit;
    assert Offset(p, limit) == (i / limit) * limit;
  }

  /** The rows of page `page`: a slice of at most `limit` rows starting at `offset`, cut short at the end. */
  function Window<T>(s: seq<T>, offset: nat, limit: nat): (w: seq<T>)
    ensures |w| <= limit
    ensures |w| == if offset >= |s| then 0 else if |s| - offset < limit then |s| - offset else limit
    ensures forall k | 0 <= k < |w| :: offset + k < |s| && w[k] == s[offset + k]
  {
    if offset >= |s| then [] else if |s| - offset < limit then s[offset..] else s[offset..offset + limit]
  }

  /* ---------------------------- Filters --------------------------------- */

  /** The rows that `keep` accepts, in their original order. */
  function Where<T>(rows: seq<T>, keep: T -> bool): (r: seq<T>)
    ensures forall x | x in r :: x in rows && keep(x)
    ensures forall x | x in rows && keep(x) :: x in r
    ensures |r| <= |rows|
    ensures multiset(r) <= multiset(rows)
  {
    if rows == [] then []
    else
      var rest := Where(rows[1..], keep);
      assert rows == [rows[0]] + rows[1..];
      if keep(rows[0]) then [rows[0]] + rest else rest
  }

  /** The filters of `GET /cats`: each one that is given must match. */
  datatype CatFilters = CatFilters(kind: Option<CatType>, status: Option<Status>, gender: Option<Gender>)

  predicate CatMatches(f: CatFilters, c: Cat) {
    && (f.kind.Some? ==> c.kind == f.kind.value)
    && (f.status.Some? ==> c.status == f.status.value)
    && (f.gender.Some? ==> c.gender == f.gender.value)
  }

  function CatFilter(f: CatFilters): Cat -> bool {
    c => CatMatches(f, c)
  }

  /** `where.catId` is only set for a truthy `catId`: 0 filters nothing. */
  predicate PhotoMatches(catId: Option<int>, p: Photo) {
    catId.Some? && catId.value != 0 ==> p.catId == catId.value
  }

  function PhotoFilter(catId: Option<int>): Photo -> bool {
    p => PhotoMatches(catId, p)
  }

  /* ----------------------------- Order ---------------------------------- */

  /** An `ORDER BY` entry: a column and its direction. */
  datatype Order = Order(field: string, descending: bool)

  const DefaultCatSort: string := "createdAt:desc"
  const DefaultPhotoSort: string := "position:asc"

  /** `sort.split(":")` and the upper-cased direction, for a `sort` the pattern has accepted. */
  function OrderOf(sort: string): (o: Order)
    requires SortMatches(sort)
    ensures |o.field| > 0 && forall j | 0 <= j < |o.field| :: IsFieldChar(o.field[j])
  {
    var i := ColonIndex(sort);
    Order(sort[..i], SameIgnoringCase(sort[i + 1..], "desc"))
  }

  /** Whatever the letter case of the direction, `field:dir` orders by `field`, descending exactly for "desc". */
  lemma OrderOfAccepted(field: string, dir: string)
    requires |field| > 0 && forall j | 0 <= j < |field| :: IsFieldChar(field[j])
    requires IsDirectionText(dir)
    ensures SortMatches(field + ":" + dir)
    ensures OrderOf(field + ":" + dir) == Order(field, SameIgnoringCase(dir, "desc"))
  {
    SortAccepts(field, dir);
    var s := field + ":" + dir;
    assert forall j | 0 <= j < |field| :: s[j] == field[j] && s[j] != ':';
    assert s[|field|] == ':';
    assert ColonIndex(s) == |field|;
    assert s[..|field|] == field;
    assert s[|field| + 1..] == dir;
  }

  /** The default order of cats: newest first. */
  lemma DefaultCatOrder()
    ensures SortMatches(DefaultCatSort) && OrderOf(DefaultCatSort) == Order("createdAt", true)
  {
    assert DefaultCatSort == "createdAt" + ":" + "desc";
    assert SameIgnoringCase("desc", "desc");
    OrderOfAccepted("createdAt", "desc");
  }

  /** The default order of photos: by ascending position. */
  lemma DefaultPhotoOrder()
    ensures SortMatches(DefaultPhotoSort) && OrderOf(DefaultPhotoSort) == Order("position", false)
  {
    assert DefaultPhotoSort == "position" + ":" + "asc";
    assert SameIgnoringCase("asc", "asc");
    assert LowerAscii('a') != LowerAscii('d');
    OrderOfAccepted("position", "asc");
  }

  /**
   * What the database knows of a table's columns: whether it has a column of
   * a given name, how that column ranks a row, and the message of the error
   * an unknown column raises.
   */
  datatype Columns<!R> = Columns(known: string -> bool, rank: (string, R) -> int, refusal: string)

  /** Lexicographic order on sort keys. */
  predicate KeyLe(a: (int, int), b: (int, int)) {
    a.0 < b.0 || (a.0 == b.0 && a.1 <= b.1)
  }

  predicate SortedBy<T>(s: seq<T>, key: T -> (int, int)) {
    forall i, j | 0 <= i < j < |s| :: KeyLe(key(s[i]), key(s[j]))
  }

  /** `x` placed before the first row whose key is not below its own. */
  function Insert<T>(x: T, s: seq<T>, key: T -> (int, int)): (r: seq<T>)
    ensures multiset(r) == multiset(s) + multiset{x}
    ensures |r| == |s| + 1
  {
    if s == [] then [x]
    else if KeyLe(key(x), key(s[0])) then [x] + s
    else
      assert s == [s[0]] + s[1..];
      [s[0]] + Insert(x, s[1..], key)
  }

  lemma {:induction false} InsertSorted<T>(x: T, s: seq<T>, key: T -> (int, int))
    requires SortedBy(s, key)
    ensures SortedBy(Insert(x, s, key), key)
  {
    if s == [] || KeyLe(key(x), key(s[0])) {
    } else {
      var t := Insert(x, s[1..], key);
      assert SortedBy(s[1..], key) by {
        assert forall j | 0 <= j < |s[1..]| :: s[1..][j] == s[j + 1];
      }
      InsertSorted(x, s[1..], key);
      InsertAbove(x, s[1..], key, key(s[0]));
      var r := [s[0]] + t;
      assert Insert(x, s, key) == r;
      forall i, j | 0 <= i < j < |r|
        ensures KeyLe(key(r[i]), key(r[j]))
      {
        if i > 0 {
          assert r[i] == t[i - 1] && r[j] == t[j - 1];
        } else {
          assert r[j] == t[j - 1];
        }
      }
    }
  }

  /** Inserting a row whose key is not below `lo` into rows whose keys are not below `lo` keeps every key above `lo`. */
  lemma InsertAbove<T>(x: T, s: seq<T>, key: T -> (int, int), lo: (int, int))
    requires KeyLe(lo, key(x)) && forall j | 0 <= j < |s| :: KeyLe(lo, key(s[j]))
    ensures forall j | 0 <= j < |Insert(x, s, key)| :: KeyLe(lo, key(Insert(x, s, key)[j]))
  {
    var r := Insert(x, s, key);
    forall j | 0 <= j < |r|
      ensures KeyLe(lo, key(r[j]))
    {
      assert r[j] in multiset(r);
      if r[j] != x {
        assert r[j] in multiset(s);
        var m :| 0 <= m < |s| && s[m] == r[j];
      }
    }
  }

  /** The rows ordered by `key`, rows with equal keys keeping their relative order. */
  function SortBy<T>(s: seq<T>, key: T -> (int, int)): (r: seq<T>)
    ensures multiset(r) == multiset(s)
    ensures |r| == |s|
  {
    if s == [] then []
    else
      assert s == [s[0]] + s[1..];
      Insert(s[0], SortBy(s[1..], key), key)
  }

  lemma {:induction false} SortBySorted<T>(s: seq<T>, key: T -> (int, int))
    ensures SortedBy(SortBy(s, key), key)
  {
    if s != [] {
      SortBySorted(s[1..], key);
      InsertSorted(s[0], SortBy(s[1..], key), key);
    }
  }

  /** A row's sort key under `ORDER BY field dir` (cats add no second column: ties keep storage order). */
  function CatKey(cols: Columns<Cat>, o: Order, c: Cat): (int, int) {
    var v := cols.rank(o.field, c);
    (if o.descending then -v else v, 0)
  }

  /** A photo's key under `ORDER BY field dir, id ASC`. */
  function PhotoKey(cols: Columns<Photo>, o: Order, p: Photo): (int, int) {
    var v := cols.rank(o.field, p);
    (if o.descending then -v else v, p.id)
  }

  function CatOrder(cols: Columns<Cat>, o: Order): Cat -> (int, int) {
    c => CatKey(cols, o, c)
  }

  function PhotoOrder(cols: Columns<Photo>, o: Order): Photo -> (int, int) {
    p => PhotoKey(cols, o, p)
  }

  /** `ORDER BY field dir` on cats: one row precedes another by the column's rank in the requested direction. */
  lemma CatKeyOrder(cols: Columns<Cat>, o: Order, a: Cat, b: Cat)
    ensures var ra, rb := cols.rank(o.field, a), cols.rank(o.field, b);
      KeyLe(CatKey(cols, o, a), CatKey(cols, o, b)) <==> if o.descending then ra >= rb else ra <= rb
  {
  }

  /** `ORDER BY field dir, id ASC` on photos: the column decides, and equal ranks are ordered by ascending id. */
  lemma PhotoKeyOrder(cols: Columns<Photo>, o: Order, a: Photo, b: Photo)
    ensures var ra, rb := cols.rank(o.field, a), cols.rank(o.field, b);
      KeyLe(PhotoKey(cols, o, a), PhotoKey(cols, o, b)) <==>
        if ra == rb then a.id <= b.id else if o.descending then ra > rb else ra < rb
  {
  }

  /* ---------------------------- Responses ------------------------------- */

  /** The `meta` block of a listing. */
  datatype Meta<F> = Meta(page: int, limit: int, total: nat, totalPages: nat, sort: string, filters: F)

  datatype Listed<R, F> = Listed(meta: Meta<F>, data: seq<R>)

  /**
   * The page of a listing once the rows have been filtered and ordered. Its
   * ensures only unfold the record it builds; they keep `Serve`'s proofs from
   * opening the body.
   */
  function PageOf<R, F>(page: int, limit: int, sort: string, filters: F, total: nat, ordered: seq<R>): (l: Listed<R, F>)
    requires page >= 1 && limit >= 1
    ensures l.meta == Meta(page, limit, total, TotalPages(total, limit), sort, filters)
    ensures l.data == Window(ordered, Offset(page, limit), limit)
  {
    Listed(Meta(page, limit, total, TotalPages(total, limit), sort, filters), Window(ordered, Offset(page, limit), limit))
  }

  /** Filter the rows, order them, and serve page `page`; `total` counts the rows that pass the filter. */
  function Serve<R, F>(page: int, limit: int, sort: string, filters: F, rows: seq<R>, keep: R -> bool, key: R -> (int, int)): (l: Listed<R, F>)
    requires page >= 1 && limit >= 1
    ensures l.meta.page == page && l.meta.limit == limit && l.meta.sort == sort && l.meta.filters == filters
    ensures l.meta.total == |Where(rows, keep)| && l.meta.totalPages == TotalPages(|Where(rows, keep)|, limit)
    ensures |l.data| <= limit
  {
    var matching := Where(rows, keep);
    PageOf(page, limit, sort, filters, |matching|, SortBy(matching, key))
  }

  /** What every served page satisfies. */
  lemma ServeFacts<R, F>(page: int, limit: int, sort: string, filters: F, rows: seq<R>, keep: R -> bool, key: R -> (int, int))
    requires page >= 1 && limit >= 1
    ensures var l := Serve(page, limit, sort, filters, rows, keep, key);
      && l.meta.page == page && l.meta.limit == limit && l.meta.sort == sort && l.meta.filters == filters
      && |l.data| <= limit
      && (forall x | x in l.data :: x in rows && keep(x))
      && SortedBy(l.data, key)
      && l.meta.total == |Where(rows, keep)|
      && l.meta.totalPages == TotalPages(l.meta.total, limit)
      && l.meta.total <= l.meta.totalPages * limit
      && l.data == Window(SortBy(Where(rows, keep), key), Offset(page, limit), limit)
  {
    var matching := Where(rows, keep);
    var ordered := SortBy(matching, key);
    SortBySorted(matching, key);
    WindowSorted(ordered, Offset(page, limit), limit, key);
    var l := Serve(page, limit, sort, filters, rows, keep, key);
    forall x | x in l.data
      ensures x in rows && keep(x)
    {
      assert x in multiset(ordered);
    }
  }

  /** Every slice of an ordered listing is ordered. */
  lemma WindowSorted<T>(s: seq<T>, offset: nat, limit: nat, key: T -> (int, int))
    requires SortedBy(s, key)
    ensures SortedBy(Window(s, offset, limit), key)
  {
    var w := Window(s, offset, limit);
    forall i, j | 0 <= i < j < |w|
      ensures KeyLe(key(w[i]), key(w[j]))
    {
      assert w[i] == s[offset + i] && w[j] == s[offset + j];
    }
  }

  /** A page past the last one is empty. */
  lemma PageBeyondEnd<T>(s: seq<T>, page: int, limit: int)
    requires limit >= 1 && page > TotalPages(|s|, limit)
    ensures Window(s, Offset(page, limit), limit) == []
  {
    var n := TotalPages(|s|, limit);
    assert (page - 1) * limit >= n * limit by {
      assert page - 1 >= n;
      MultiplyMonotonic(n, page - 1, limit);
    }
  }

  lemma MultiplyMonotonic(a: int, b: int, c: int)
    requires a <= b && c >= 0
    ensures a * c <= b * c
  {
  }

  /* ----------------------------- GET /cats ------------------------------ */

  /**
   * `GET /cats`: parse the query, apply the defaults and clamps, filter on
   * type, status and gender, order by the `sort` column, and serve one page.
   * This is the corrected listing: `meta.total` counts the matching cats once
   * each. The count the route computes as written, one per row of the
   * cat–photo join, is `JoinedCount`.
   */
  function ListCats(prim: Primitives, query: Raw, rows: seq<Cat>, cols: Columns<Cat>): (r: Outcome<Listed<Cat, CatFilters>>)
    ensures ParseCatListQuery(prim, query).Failed? ==>
      r == Fail(AppError(Some(400), ValidationFailed, Some(ParseCatListQuery(prim, query).issues)))
    ensures ParseCatListQuery(prim, query).Thrown? ==> r == Fail(Plain(ParseCatListQuery(prim, query).message))
    ensures r.Answer? ==> r.status == 200 && ParseCatListQuery(prim, query).Parsed?
  {
    var parsed := ParseCatListQuery(prim, query);
    match Validate(parsed)
    case Raise(e) => Fail(e)
    case Continue(q) => CatsPage(q, rows, cols)
  }

  /** The page `GET /cats` serves once its query parsed as `q`. */
  function CatsPage(q: CatListQuery, rows: seq<Cat>, cols: Columns<Cat>): (r: Outcome<Listed<Cat, CatFilters>>)
    requires q.sort.Some? ==> SortMatches(q.sort.value)
    ensures r.Answer? ==> r.status == 200
    ensures SortMatches(q.sort.GetOr(DefaultCatSort))
    ensures r.Fail? <==> !cols.known(OrderOf(q.sort.GetOr(DefaultCatSort)).field)
    ensures r.Fail? ==> r.error == Plain(cols.refusal)
  {
    var sort := q.sort.GetOr(DefaultCatSort);
    DefaultCatOrder();
    var o := OrderOf(sort);
    if !cols.known(o.field) then Fail(Plain(cols.refusal))
    else
      var filters := CatFilters(q.kind, q.status, q.gender);
      Answer(200, Serve(EffectivePage(q.page), EffectiveLimit(q.limit), sort, filters, rows, CatFilter(filters), CatOrder(cols, o)))
  }

  /**
   * A page of cats served by the corrected listing: its size is within the
   * clamp, every cat on it is a stored cat that passes the filters the meta
   * block reports, the page is the requested window of the ordered matches,
   * and `total` counts each matching cat once (the route as written reports
   * `JoinedCount` instead).
   */
  lemma ListCatsAnswer(prim: Primitives, query: Raw, rows: seq<Cat>, cols: Columns<Cat>)
    requires ListCats(prim, query, rows, cols).Answer?
    ensures ParseCatListQuery(prim, query).Parsed?
    ensures var l := ListCats(prim, query, rows, cols).body; var q := ParseCatListQuery(prim, query).value;
      && 1 <= l.meta.limit <= MaxLimit && l.meta.page >= 1
      && |l.data| <= l.meta.limit
      && SortMatches(l.meta.sort)
      && (forall c | c in l.data :: c in rows && CatMatches(l.meta.filters, c))
      && SortedBy(l.data, CatOrder(cols, OrderOf(l.meta.sort)))
      && l.meta.total == |Where(rows, CatFilter(l.meta.filters))|
      && l.meta.totalPages == TotalPages(l.meta.total, l.meta.limit)
      && l.meta.total <= l.meta.totalPages * l.meta.limit
      && l.meta.page == EffectivePage(q.page) && l.meta.limit == EffectiveLimit(q.limit)
      && l.meta.sort == q.sort.GetOr(DefaultCatSort) && l.meta.filters == CatFilters(q.kind, q.status, q.gender)
      && l.data == Window(SortBy(Where(rows, CatFilter(l.meta.filters)), CatOrder(cols, OrderOf(l.meta.sort))),
                          Offset(l.meta.page, l.meta.limit), l.meta.limit)
  {
    var parsed := ParseCatListQuery(prim, query);
    assert Validate(parsed) == Continue(parsed.value);
    CatsPageAnswer(parsed.value, rows, cols);
  }

  /** What a served page of cats satisfies, in terms of the parsed query. */
  lemma CatsPageAnswer(q: CatListQuery, rows: seq<Cat>, cols: Columns<Cat>)
    requires q.sort.Some? ==> SortMatches(q.sort.value)
    requires CatsPage(q, rows, cols).Answer?
    ensures var l := CatsPage(q, rows, cols).body;
      && 1 <= l.meta.limit <= MaxLimit && l.meta.page >= 1
      && |l.data| <= l.meta.limit
      && SortMatches(l.meta.sort)
      && (forall c | c in l.data :: c in rows && CatMatches(l.meta.filters, c))
      && SortedBy(l.data, CatOrder(cols, OrderOf(l.meta.sort)))
      && l.meta.total == |Where(rows, CatFilter(l.meta.filters))|
      && l.meta.totalPages == TotalPages(l.meta.total, l.meta.limit)
      && l.meta.total <= l.meta.totalPages * l.meta.limit
      && l.meta.page == EffectivePage(q.page) && l.meta.limit == EffectiveLimit(q.limit)
      && l.meta.sort == q.sort.GetOr(DefaultCatSort) && l.meta.filters == CatFilters(q.kind, q.status, q.gender)
      && l.data == Window(SortBy(Where(rows, CatFilter(l.meta.filters)), CatOrder(cols, OrderOf(l.meta.sort))),
                          Offset(l.meta.page, l.meta.limit), l.meta.limit)
  {
    var sort := q.sort.GetOr(DefaultCatSort);
    var filters := CatFilters(q.kind, q.status, q.gender);
    DefaultCatOrder();
    var key := CatOrder(cols, OrderOf(sort));
    assert CatsPage(q, rows, cols).body == Serve(EffectivePage(q.page), EffectiveLimit(q.limit), sort, filters, rows, CatFilter(filters), key);
    ServeFacts(EffectivePage(q.page), EffectiveLimit(q.limit), sort, filters, rows, CatFilter(filters), key);
  }

  /** The photos of cat `catId`. */
  function PhotosOf(photos: seq<Photo>, catId: int): seq<Photo> {
    Where(photos, (p: Photo) => p.catId == catId)
  }

  /**
   * The count `findAndCountAll` reports with the photos included: one per row
   * of the cat–photo outer join, so a cat with several photos counts several
   * times and a cat with none counts once.
   */
  function JoinedCount(cats: seq<Cat>, photos: seq<Photo>): (n: nat)
    ensures n >= |cats|
  {
    if cats == [] then 0
    else
      var own := |PhotosOf(photos, cats[0].id)|;
      (if own < 1 then 1 else own) + JoinedCount(cats[1..], photos)
  }

  /** The joined count is the number of cats exactly when no listed cat has more than one photo. */
  lemma {:induction false} JoinedCountExact(cats: seq<Cat>, photos: seq<Photo>)
    ensures JoinedCount(cats, photos) == |cats| <==>
      forall k | 0 <= k < |cats| :: |PhotosOf(photos, cats[k].id)| <= 1
  {
    if cats != [] {
      JoinedCountExact(cats[1..], photos);
      assert forall k | 0 <= k < |cats[1..]| :: cats[1..][k] == cats[k + 1];
      if forall k | 0 <= k < |cats| :: |PhotosOf(photos, cats[k].id)| <= 1 {
        assert |PhotosOf(photos, cats[0].id)| <= 1;
        assert forall k | 0 <= k < |cats[1..]| :: |PhotosOf(photos, cats[1..][k].id)| <= 1 by {
          forall k | 0 <= k < |cats[1..]|
            ensures |PhotosOf(photos, cats[1..][k].id)| <= 1
          {
            assert cats[1..][k] == cats[k + 1];
          }
        }
      }
    }
  }

  /** One cat with two photos: the count says 2 and with a limit of 1 announces a second page that comes back empty. */
  lemma JoinedCountOvercounts()
    ensures var c := Cat(1, "Milou", Female, None, Available, Breeder, None, None, None, None, None, None);
      var photos := [Photo(1, 1, "a", None, true, 0), Photo(2, 1, "b", None, false, 1)];
      && JoinedCount([c], photos) == 2
      && TotalPages(JoinedCount([c], photos), 1) == 2
      && Window([c], Offset(2, 1), 1) == []
  {
    var c := Cat(1, "Milou", Female, None, Available, Breeder, None, None, None, None, None, None);
    var photos := [Photo(1, 1, "a", None, true, 0), Photo(2, 1, "b", None, false, 1)];
    var keep := (p: Photo) => p.catId == c.id;
    assert Where(photos[2..], keep) == [];
    assert Where(photos[1..], keep) == [photos[1]];
    assert Where(photos, keep) == [photos[0], photos[1]];
    assert PhotosOf(photos, c.id) == [photos[0], photos[1]];
    assert JoinedCount([c][1..], photos) == 0;
  }

  /* ---------------------------- GET /photos ----------------------------- */

  /**
   * `GET /photos`: parse the query, apply the defaults and clamps, filter on
   * `catId` when it is truthy, order by the `sort` column then by id, and
   * serve one page. The meta block reports `catId` as given, 0 included.
   */
  function ListPhotos(prim: Primitives, query: Raw, rows: seq<Photo>, cols: Columns<Photo>): (r: Outcome<Listed<Photo, Option<int>>>)
    ensures ParsePhotoListQuery(prim, query).Failed? ==>
      r == Fail(AppError(Some(400), ValidationFailed, Some(ParsePhotoListQuery(prim, query).issues)))
    ensures ParsePhotoListQuery(prim, query).Thrown? ==> r == Fail(Plain(ParsePhotoListQuery(prim, query).message))
    ensures r.Answer? ==> r.status == 200 && ParsePhotoListQuery(prim, query).Parsed?
  {
    var parsed := ParsePhotoListQuery(prim, query);
    match Validate(parsed)
    case Raise(e) => Fail(e)
    case Continue(q) => PhotosPage(q, rows, cols)
  }

  /** The page `GET /photos` serves once its query parsed as `q`. */
  function PhotosPage(q: PhotoListQuery, rows: seq<Photo>, cols: Columns<Photo>): (r: Outcome<Listed<Photo, Option<int>>>)
    requires q.sort.Some? ==> SortMatches(q.sort.value)
    ensures r.Answer? ==> r.status == 200
    ensures SortMatches(q.sort.GetOr(DefaultPhotoSort))
    ensures r.Fail? <==> !cols.known(OrderOf(q.sort.GetOr(DefaultPhotoSort)).field)
    ensures r.Fail? ==> r.error == Plain(cols.refusal)
  {
    var sort := q.sort.GetOr(DefaultPhotoSort);
    DefaultPhotoOrder();
    var o := OrderOf(sort);
    if !cols.known(o.field) then Fail(Plain(cols.refusal))
    else
      Answer(200, Serve(EffectivePage(q.page), EffectiveLimit(q.limit), sort, q.catId, rows, PhotoFilter(q.catId), PhotoOrder(cols, o)))
  }

  /**
   * A page of photos served: within the clamp, only stored photos, only photos
   * of the requested cat when a non-zero `catId` was given, in the order of the
   * sort column with ties broken by ascending id.
   */
  lemma ListPhotosAnswer(prim: Primitives, query: Raw, rows: seq<Photo>, cols: Columns<Photo>)
    requires ListPhotos(prim, query, rows, cols).Answer?
    ensures ParsePhotoListQuery(prim, query).Parsed?
    ensures var l := ListPhotos(prim, query, rows, cols).body; var q := ParsePhotoListQuery(prim, query).value;
      && 1 <= l.meta.limit <= MaxLimit && l.meta.page >= 1
      && |l.data| <= l.meta.limit
      && SortMatches(l.meta.sort)
      && l.meta.filters == q.catId
      && (forall p | p in l.data :: p in rows && PhotoMatches(l.meta.filters, p))
      && (l.meta.filters.Some? && l.meta.filters.value != 0 ==> forall p | p in l.data :: p.catId == l.meta.filters.value)
      && SortedBy(l.data, PhotoOrder(cols, OrderOf(l.meta.sort)))
      && l.meta.total == |Where(rows, PhotoFilter(l.meta.filters))|
      && l.meta.totalPages == TotalPages(l.meta.total, l.meta.limit)
      && l.meta.total <= l.meta.totalPages * l.meta.limit
      && l.meta.page == EffectivePage(q.page) && l.meta.limit == EffectiveLimit(q.limit)
      && l.meta.sort == q.sort.GetOr(DefaultPhotoSort)
      && l.data == Window(SortBy(Where(rows, PhotoFilter(l.meta.filters)), PhotoOrder(cols, OrderOf(l.meta.sort))),
                          Offset(l.meta.page, l.meta.limit), l.meta.limit)
  {
    var parsed := ParsePhotoListQuery(prim, query);
    assert Validate(parsed) == Continue(parsed.value);
    PhotosPageAnswer(parsed.value, rows, cols);
  }

  /** What a served page of photos satisfies, in terms of the parsed query. */
  lemma PhotosPageAnswer(q: PhotoListQuery, rows: seq<Photo>, cols: Columns<Photo>)
    requires q.sort.Some? ==> SortMatches(q.sort.value)
    requires PhotosPage(q, rows, cols).Answer?
    ensures var l := PhotosPage(q, rows, cols).body;
      && 1 <= l.meta.limit <= MaxLimit && l.meta.page >= 1
      && |l.data| <= l.meta.limit
      && SortMatches(l.meta.sort)
      && l.meta.filters == q.catId
      && (forall p | p in l.data :: p in rows && PhotoMatches(l.meta.filters, p))
      && (l.meta.filters.Some? && l.meta.filters.value != 0 ==> forall p | p in l.data :: p.catId == l.meta.filters.value)
      && SortedBy(l.data, PhotoOrder(cols, OrderOf(l.meta.sort)))
      && l.meta.total == |Where(rows, PhotoFilter(l.meta.filters))|
      && l.meta.totalPages == TotalPages(l.meta.total, l.meta.limit)
      && l.meta.total <= l.meta.totalPages * l.meta.limit
      && l.meta.page == EffectivePage(q.page) && l.meta.limit == EffectiveLimit(q.limit)
      && l.meta.sort == q.sort.GetOr(DefaultPhotoSort)
      && l.data == Window(SortBy(Where(rows, PhotoFilter(l.meta.filters)), PhotoOrder(cols, OrderOf(l.meta.sort))),
                          Offset(l.meta.page, l.meta.limit), l.meta.limit)
  {
    var sort := q.sort.GetOr(DefaultPhotoSort);
    DefaultPhotoOrder();
    ServeFacts(EffectivePage(q.page), EffectiveLimit(q.limit), sort, q.catId, rows, PhotoFilter(q.catId), PhotoOrder(cols, OrderOf(sort)));
  }

  /** `catId=0` is reported in the meta block but filters nothing: every stored photo counts. */
  lemma ListPhotosCatZero(prim: Primitives, query: Raw, rows: seq<Photo>, cols: Columns<Photo>)
    requires ListPhotos(prim, query, rows, cols).Answer?
    requires ParsePhotoListQuery(prim, query).value.catId == Some(0)
    ensures ListPhotos(prim, query, rows, cols).body.meta.filters == Some(0)
    ensures ListPhotos(prim, query, rows, cols).body.meta.total == |rows|
  {
    AllKept(rows, PhotoFilter(Some(0)));
    ListPhotosAnswer(prim, query, rows, cols);
  }

  /**
   * A requested page and page size within bounds are served as asked:
   * `?page=2&limit=5` reports page 2 and limit 5 and serves the matching
   * photos from the sixth on, at most five of them.
   */
  lemma ListPhotosRequestedPage(prim: Primitives, query: Raw, rows: seq<Photo>, cols: Columns<Photo>)
    requires ListPhotos(prim, query, rows, cols).Answer?
    requires query.RObject? && "page" in query.fields && "limit" in query.fields
    requires IntFits(prim, query.fields["page"]) && IntOf(prim, query.fields["page"]) >= 1
    requires IntFits(prim, query.fields["limit"]) && 1 <= IntOf(prim, query.fields["limit"]) <= MaxLimit
    ensures var l := ListPhotos(prim, query, rows, cols).body;
      && l.meta.page == IntOf(prim, query.fields["page"]) && l.meta.limit == IntOf(prim, query.fields["limit"])
      && |l.data| <= l.meta.limit
      && l.data == Window(SortBy(Where(rows, PhotoFilter(l.meta.filters)), PhotoOrder(cols, OrderOf(l.meta.sort))),
                          Offset(l.meta.page, l.meta.limit), l.meta.limit)
  {
    var q := ParsePhotoListQuery(prim, query).value;
    ListPhotosAnswer(prim, query, rows, cols);
    assert q.page == Some(IntOf(prim, query.fields["page"]));
    assert q.limit == Some(IntOf(prim, query.fields["limit"]));
  }

  /** Without `type`, `status` or `gender` the `where` clause is empty and every cat counts. */
  lemma NoCatFilters(rows: seq<Cat>)
    ensures Where(rows, CatFilter(CatFilters(None, None, None))) == rows
  {
    AllKept(rows, CatFilter(CatFilters(None, None, None)));
  }

  lemma {:induction false} AllKept<T>(rows: seq<T>, keep: T -> bool)
    requires forall x | x in rows :: keep(x)
    ensures Where(rows, keep) == rows
  {
    if rows != [] {
      AllKept(rows[1..], keep);
      assert rows == [rows[0]] + rows[1..];
    }
  }
}
