/**
 * The fragment of the Zod 3 parsing model that the request schemas rely on.
 *
 * A schema field yields one of four outcomes:
 *  - Good: it parsed and produced a value;
 *  - Dirty: a check on a value of the right type failed (a `.min`, `.url`,
 *    `.regex`, `.refine` or `.int` check); the issue is recorded and the
 *    object-level `superRefine` still runs;
 *  - Bad: the value has the wrong type or no union member accepted it; the
 *    issue is recorded and the object is aborted, so `superRefine` is skipped;
 *  - Threw: code inside a `.transform` threw; the exception escapes
 *    `safeParse` and ends the parse at once.
 * An object schema parses its keys in declaration order, so the first key
 * whose transform throws decides the exception.
 */
module Zod {
  import opened Wrappers

  /** An untrusted input value, as a JSON body, a query string or a multipart form delivers it. */
  datatype Raw =
    | RString(s: string)
      /** A finite number: its integer part (what `Math.trunc` gives) and whether a non-zero fraction was cut off. */
    | RNumber(whole: int, fraction: bool)
    | RBool(b: bool)
    | RNull
    | RArray(items: seq<Raw>)
    | RObject(fields: map<string, Raw>)

  /** The value under `key`; `None` stands for `undefined` (the key is missing). */
  function Lookup(fields: map<string, Raw>, key: string): (v: Option<Raw>)
    ensures v.Some? <==> key in fields
    ensures v.Some? ==> v.value == fields[key]
  {
    if key in fields then Some(fields[key]) else None
  }

  /**
   * The two library primitives the coercers call, left abstract:
   * `numberOf(s)` is `Math.trunc(Number(s))` when `Number(s)` is finite and
   * `None` otherwise; `isUrl(s)` is Zod's `z.string().url()` test.
   */
  datatype Primitives = Primitives(numberOf: string -> Option<int>, isUrl: string -> bool)

  datatype Segment = Key(name: string) | Index(i: nat)
  type Path = seq<Segment>

  datatype Code = InvalidType | InvalidUnion | TooSmall | InvalidString | Custom

  /** One collected validation issue: where it is, its kind and its message. */
  datatype Issue = Issue(path: Path, code: Code, message: string)

  /** The single-key path of a top-level field. */
  function FieldPath(name: string): Path {
    [Key(name)]
  }

  /** Zod's name for the type of a received value. */
  function TypeName(v: Option<Raw>): string {
    match v
    case None => "undefined"
    case Some(RString(_)) => "string"
    case Some(RNumber(_, _)) => "number"
    case Some(RBool(_)) => "boolean"
    case Some(RNull) => "null"
    case Some(RArray(_)) => "array"
    case Some(RObject(_)) => "object"
  }

  /** The issue of a value of the wrong type; a missing value reads "Required". */
  function TypeIssue(path: Path, expected: string, v: Option<Raw>): (i: Issue)
    ensures i.path == path && i.code == InvalidType
    ensures v.None? ==> i.message == "Required"
  {
    Issue(path, InvalidType, if v.None? then "Required" else "Expected " + expected + ", received " + TypeName(v))
  }

  /** The issue of a union none of whose members accepted the value. */
  function UnionIssue(path: Path): Issue {
    Issue(path, InvalidUnion, "Invalid input")
  }

  /** What one field's parse yields. */
  datatype Field<T> = Good(value: T) | Dirty(issues: seq<Issue>) | Bad(issues: seq<Issue>) | Threw(message: string) {

    function Issues(): seq<Issue> {
      if Dirty? || Bad? then issues else []
    }

    /** The outcome with the value forgotten, for merging with the other fields. */
    function Verdict(): (v: Verdict)
      ensures v.Clean? <==> Good?
      ensures v.Raised? <==> Threw?
      ensures v.Broken? <==> Bad?
      ensures v.Issues() == Issues()
      ensures Threw? ==> v == Raised(message)
    {
      match this
      case Good(_) => Clean
      case Dirty(xs) => Flawed(xs)
      case Bad(xs) => Broken(xs)
      case Threw(m) => Raised(m)
    }

    function Map<U>(f: T -> U): (r: Field<U>)
      ensures r.Good? <==> Good?
      ensures r.Good? ==> r.value == f(value)
      ensures r.Verdict() == Verdict()
    {
      match this
      case Good(v) => Good(f(v))
      case Dirty(xs) => Dirty(xs)
      case Bad(xs) => Bad(xs)
      case Threw(m) => Threw(m)
    }

    /** A failure carries at least one issue, and every issue lies under `path`. */
    predicate Under(path: Path) {
      (Dirty? || Bad?) ==> issues != [] && forall i | i in issues :: path <= i.path
    }
  }

  /** A field outcome without its value. */
  datatype Verdict = Clean | Flawed(issues: seq<Issue>) | Broken(issues: seq<Issue>) | Raised(message: string) {

    function Issues(): seq<Issue> {
      if Flawed? || Broken? then issues else []
    }

    predicate WellFormed() {
      (Flawed? || Broken?) ==> issues != []
    }
  }

  /** The issues of all outcomes, in order. */
  function AllIssues(vs: seq<Verdict>): seq<Issue>
    decreases |vs|
  {
    if vs == [] then [] else vs[0].Issues() + AllIssues(vs[1..])
  }

  lemma {:induction false} AllIssuesMembers(vs: seq<Verdict>, x: Issue)
    ensures x in AllIssues(vs) <==> exists k | 0 <= k < |vs| :: x in vs[k].Issues()
    decreases |vs|
  {
    if vs != [] {
      AllIssuesMembers(vs[1..], x);
      if x in AllIssues(vs[1..]) {
        var k :| 0 <= k < |vs[1..]| && x in vs[1..][k].Issues();
        assert x in vs[k + 1].Issues();
      }
      if exists k | 0 <= k < |vs| :: x in vs[k].Issues() {
        var k :| 0 <= k < |vs| && x in vs[k].Issues();
        if k > 0 {
          assert x in vs[1..][k - 1].Issues();
        }
      }
    }
  }

  /**
   * The outcome of an object whose fields yielded `vs`, in declaration order:
   * the first exception wins; otherwise every issue of every field is
   * collected, and the object is aborted when some field is.
   */
  function Merge(vs: seq<Verdict>): Verdict
    decreases |vs|
  {
    if vs == [] then Clean else Then(vs[0], Merge(vs[1..]))
  }

  /** One outcome followed by the merged outcome of the fields after it. */
  function Then(v: Verdict, rest: Verdict): (r: Verdict)
    ensures r.Clean? <==> v.Clean? && rest.Clean?
    ensures r.Raised? <==> v.Raised? || rest.Raised?
    ensures r.Raised? ==> r == if v.Raised? then v else rest
    ensures r.Broken? <==> !r.Raised? && (v.Broken? || rest.Broken?)
    ensures !r.Raised? ==> r.Issues() == v.Issues() + rest.Issues()
    ensures v.WellFormed() && rest.WellFormed() ==> r.WellFormed()
  {
    if v.Raised? then v
    else if rest.Raised? then rest
    else if v.Clean? && rest.Clean? then Clean
    else if v.Broken? || rest.Broken? then Broken(v.Issues() + rest.Issues())
    else Flawed(v.Issues() + rest.Issues())
  }

  /** Merging is clean exactly when every outcome is. */
  lemma {:induction false} MergeClean(vs: seq<Verdict>)
    ensures Merge(vs).Clean? <==> forall v | v in vs :: v.Clean?
    decreases |vs|
  {
    if vs != [] {
      MergeClean(vs[1..]);
      assert forall v | v in vs :: v == vs[0] || v in vs[1..];
    }
  }

  /** Merging raises exactly when some outcome raises, and then with the first exception. */
  lemma {:induction false} MergeRaised(vs: seq<Verdict>)
    ensures Merge(vs).Raised? <==> exists v | v in vs :: v.Raised?
    ensures Merge(vs).Raised? ==> exists k | 0 <= k < |vs| :: vs[k] == Merge(vs) && forall j | 0 <= j < k :: !vs[j].Raised?
    decreases |vs|
  {
    if vs != [] {
      MergeRaised(vs[1..]);
      assert forall v | v in vs :: v == vs[0] || v in vs[1..];
      if !vs[0].Raised? && Merge(vs).Raised? {
        var k :| 0 <= k < |vs[1..]| && vs[1..][k] == Merge(vs[1..]) && forall j | 0 <= j < k :: !vs[1..][j].Raised?;
        assert vs[k + 1] == Merge(vs) && forall j | 0 <= j < k + 1 :: !vs[j].Raised?;
      }
    }
  }

  /** Merging aborts exactly when no outcome raises and some outcome aborts. */
  lemma {:induction false} MergeBroken(vs: seq<Verdict>)
    ensures Merge(vs).Broken? <==> !Merge(vs).Raised? && exists v | v in vs :: v.Broken?
    decreases |vs|
  {
    if vs != [] {
      MergeBroken(vs[1..]);
      assert forall v | v in vs :: v == vs[0] || v in vs[1..];
    }
  }

  /** Unless an exception ends it, merging collects every outcome's issues, in order. */
  lemma {:induction false} MergeIssues(vs: seq<Verdict>)
    ensures !Merge(vs).Raised? ==> Merge(vs).Issues() == AllIssues(vs)
    ensures (forall v | v in vs :: v.WellFormed()) ==> Merge(vs).WellFormed()
    decreases |vs|
  {
    if vs != [] {
      MergeIssues(vs[1..]);
      assert forall v | v in vs[1..] :: v in vs;
    }
  }

  /** Merging two outcomes, spelled out. */
  lemma Merge2(a: Verdict, b: Verdict)
    ensures var m := Merge([a, b]);
      && (m.Clean? <==> a.Clean? && b.Clean?)
      && (m.Raised? <==> a.Raised? || b.Raised?)
      && (m.Raised? ==> m == if a.Raised? then a else b)
      && (!m.Raised? ==> m.Issues() == a.Issues() + b.Issues())
  {
    assert Merge([b]) == Then(b, Clean) by {
      assert [b][1..] == [];
    }
    assert Merge([a, b]) == Then(a, Merge([b])) by {
      assert [a, b][1..] == [b];
    }
  }

  /** Merging three outcomes, spelled out. */
  lemma Merge3(a: Verdict, b: Verdict, c: Verdict)
    ensures var m := Merge([a, b, c]);
      && (m.Clean? <==> a.Clean? && b.Clean? && c.Clean?)
      && (m.Raised? <==> a.Raised? || b.Raised? || c.Raised?)
      && (m.Raised? ==> m == if a.Raised? then a else if b.Raised? then b else c)
      && (!m.Raised? ==> m.Issues() == a.Issues() + b.Issues() + c.Issues())
  {
    assert Merge([a, b, c]) == Then(a, Merge([b, c])) by {
      assert [a, b, c][1..] == [b, c];
    }
    Merge2(b, c);
  }

  /** Merging four outcomes, spelled out. */
  lemma Merge4(a: Verdict, b: Verdict, c: Verdict, d: Verdict)
    ensures Merge([a, b, c, d]).Clean? <==> a.Clean? && b.Clean? && c.Clean? && d.Clean?
    ensures Merge([a, b, c, d]).Raised? <==> a.Raised? || b.Raised? || c.Raised? || d.Raised?
    ensures Merge([a, b, c, d]).Raised? ==>
      Merge([a, b, c, d]) == if a.Raised? then a else if b.Raised? then b else if c.Raised? then c else d
    ensures !Merge([a, b, c, d]).Raised? ==>
      Merge([a, b, c, d]).Issues() == a.Issues() + b.Issues() + c.Issues() + d.Issues()
  {
    var rest := Merge([b, c, d]);
    assert Merge([a, b, c, d]) == Then(a, rest) by {
      assert [a, b, c, d][1..] == [b, c, d];
    }
    Merge3(b, c, d);
    if !rest.Raised? && !a.Raised? {
      AppendIssues(a.Issues(), b.Issues(), c.Issues(), d.Issues());
    }
  }

  lemma AppendIssues(a: seq<Issue>, b: seq<Issue>, c: seq<Issue>, d: seq<Issue>)
    ensures a + (b + c + d) == a + b + c + d
  {
  }

  /** Unless some outcome raises, an issue of any one outcome is in the merged issues. */
  lemma IssueReported(vs: seq<Verdict>, k: nat, x: Issue)
    requires k < |vs|
    ensures x in vs[k].Issues() && !Merge(vs).Raised? ==> x in Merge(vs).Issues()
  {
    AllIssuesMembers(vs, x);
    MergeIssues(vs);
  }

  /** The result of a whole `safeParse`, plus the exception case. */
  datatype Parse<T> = Parsed(value: T) | Failed(issues: seq<Issue>) | Thrown(message: string)

  /** The result of an object schema without a refinement, given its merged fields and its value when all are good. */
  function Conclude<T>(v: Verdict, value: Option<T>): (r: Parse<T>)
    requires v.Clean? <==> value.Some?
    ensures r.Parsed? <==> v.Clean?
    ensures r.Parsed? ==> r.value == value.value
    ensures r.Thrown? <==> v.Raised?
    ensures r.Thrown? ==> r.message == v.message
    ensures r.Failed? ==> r.issues == v.Issues()
  {
    match v
    case Clean => Parsed(value.value)
    case Raised(m) => Thrown(m)
    case Flawed(xs) => Failed(xs)
    case Broken(xs) => Failed(xs)
  }

  /**
   * The result of an object schema with a `superRefine` whose checks raise
   * `rules`: the refinement runs unless a field threw or aborted the object,
   * and its issues follow the fields' issues.
   */
  function Refined<T>(v: Verdict, value: Option<T>, rules: seq<Issue>): (r: Parse<T>)
    requires v.Clean? <==> value.Some?
    ensures r.Parsed? <==> v.Clean? && rules == []
    ensures r.Parsed? ==> r.value == value.value
    ensures r.Thrown? <==> v.Raised?
    ensures r.Thrown? ==> r.message == v.message
    ensures v.Broken? ==> r == Failed(v.issues)
    ensures r.Failed? && !v.Broken? ==> r.issues == v.Issues() + rules
  {
    match v
    case Clean => if rules == [] then Parsed(value.value) else Failed(rules)
    case Raised(m) => Thrown(m)
    case Flawed(xs) => Failed(xs + rules)
    case Broken(xs) => Failed(xs)
  }

  /** A refinement that raises nothing leaves the object's own result. */
  lemma RefinedWithoutRules<T>(v: Verdict, value: Option<T>)
    requires v.Clean? <==> value.Some?
    ensures Refined(v, value, []) == Conclude(v, value)
  {
  }

  /** `schema.optional()`: a missing value is accepted as absent. */
  function Optional<T>(v: Option<Raw>, f: Field<T>): (r: Field<Option<T>>)
    ensures r.Good? <==> v.None? || f.Good?
    ensures r.Good? ==> r.value == if v.None? then None else Some(f.value)
    ensures r.Verdict() == if v.None? then Clean else f.Verdict()
  {
    if v.None? then Good(None) else f.Map(x => Some(x))
  }

  /** `schema.default(d)`: a missing value becomes `d`. */
  function Default<T>(v: Option<Raw>, d: T, f: Field<T>): (r: Field<T>)
    ensures r.Good? <==> v.None? || f.Good?
    ensures r.Good? ==> r.value == if v.None? then d else f.value
    ensures r.Verdict() == if v.None? then Clean else f.Verdict()
  {
    if v.None? then Good(d) else f
  }

  /** `z.string()`. */
  function ZString(path: Path, v: Option<Raw>): (r: Field<string>)
    ensures r.Good? <==> v.Some? && v.value.RString?
    ensures r.Good? ==> r.value == v.value.s
    ensures !r.Good? ==> r == Bad([TypeIssue(path, "string", v)])
  {
    match v
    case Some(RString(s)) => Good(s)
    case _ => Bad([TypeIssue(path, "string", v)])
  }

  /** `z.string().min(1, message)`: the empty string is reported but does not abort. */
  function ZNonEmptyString(path: Path, v: Option<Raw>, message: string): (r: Field<string>)
    ensures r.Good? <==> v.Some? && v.value.RString? && v.value.s != ""
    ensures r.Good? ==> r.value == v.value.s
    ensures v == Some(RString("")) ==> r == Dirty([Issue(path, TooSmall, message)])
    ensures r.Bad? <==> !(v.Some? && v.value.RString?)
    ensures r.Under(path)
  {
    match v
    case Some(RString(s)) => if s == "" then Dirty([Issue(path, TooSmall, message)]) else Good(s)
    case _ => Bad([TypeIssue(path, "string", v)])
  }

  /** `z.string().url()`. */
  function ZUrl(prim: Primitives, path: Path, v: Option<Raw>): (r: Field<string>)
    ensures r.Good? <==> v.Some? && v.value.RString? && prim.isUrl(v.value.s)
    ensures r.Good? ==> r.value == v.value.s
    ensures r.Bad? <==> !(v.Some? && v.value.RString?)
    ensures !r.Threw? && r.Under(path)
  {
    match v
    case Some(RString(s)) => if prim.isUrl(s) then Good(s) else Dirty([Issue(path, InvalidString, "Invalid url")])
    case _ => Bad([TypeIssue(path, "string", v)])
  }

  /** Prepends one element's outcome to the outcome of the elements after it. */
  function Cons<T>(head: Field<T>, tail: Field<seq<T>>): (r: Field<seq<T>>)
    ensures r.Good? <==> head.Good? && tail.Good?
    ensures r.Good? ==> r.value == [head.value] + tail.value
    ensures r.Threw? <==> head.Threw? || tail.Threw?
    ensures head.Threw? ==> r == Threw(head.message)
    ensures !r.Threw? ==> r.Issues() == head.Issues() + tail.Issues()
    ensures r.Bad? <==> !r.Threw? && (head.Bad? || tail.Bad?)
  {
    if head.Threw? then Threw(head.message)
    else if tail.Threw? then Threw(tail.message)
    else if head.Good? && tail.Good? then Good([head.value] + tail.value)
    else if head.Bad? || tail.Bad? then Bad(head.Issues() + tail.Issues())
    else Dirty(head.Issues() + tail.Issues())
  }

  /** The elements of an array, the element at index `at + k` parsed by `item` under `path + [Index(at + k)]`. */
  function Elements<T>(path: Path, items: seq<Raw>, at: nat, item: (Path, Raw) -> Field<T>): (r: Field<seq<T>>)
    ensures r.Good? <==> forall k | 0 <= k < |items| :: item(path + [Index(at + k)], items[k]).Good?
    ensures r.Good? ==> |r.value| == |items|
    ensures r.Good? ==> forall k | 0 <= k < |items| :: item(path + [Index(at + k)], items[k]) == Good(r.value[k])
    ensures r.Threw? ==> exists k | 0 <= k < |items| :: item(path + [Index(at + k)], items[k]) == Threw(r.message)
    decreases |items|
  {
    if items == [] then Good([])
    else
      var rest := Elements(path, items[1..], at + 1, item);
      assert forall k | 0 < k < |items| :: items[1..][k - 1] == items[k] && at + 1 + (k - 1) == at + k;
      Cons(item(path + [Index(at)], items[0]), rest)
  }

  /** `z.array(item).min(1)`: an empty array is one issue; otherwise each element is parsed. */
  function ZNonEmptyArray<T>(path: Path, v: Option<Raw>, item: (Path, Raw) -> Field<T>): (r: Field<seq<T>>)
    ensures r.Good? ==> v.Some? && v.value.RArray? && |r.value| == |v.value.items| > 0
    ensures v == Some(RArray([])) ==> r == Dirty([Issue(path, TooSmall, "Array must contain at least 1 element(s)")])
    ensures !(v.Some? && v.value.RArray?) ==> r == Bad([TypeIssue(path, "array", v)])
    ensures r.Threw? ==> exists k | 0 <= k < |v.value.items| :: item(path + [Index(k)], v.value.items[k]) == Threw(r.message)
    ensures v.Some? && v.value.RArray? && v.value.items != [] ==>
      (r.Good? <==> forall k | 0 <= k < |v.value.items| :: item(path + [Index(k)], v.value.items[k]).Good?)
    ensures r.Good? ==> forall k | 0 <= k < |r.value| :: item(path + [Index(k)], v.value.items[k]) == Good(r.value[k])
  {
    match v
    case Some(RArray(items)) =>
      if items == [] then Dirty([Issue(path, TooSmall, "Array must contain at least 1 element(s)")])
      else Elements(path, items, 0, item)
    case _ => Bad([TypeIssue(path, "array", v)])
  }
}
