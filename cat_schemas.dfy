/**
 * The request schemas for cats: the scalar coercers, the create and update
 * payloads with their type-dependent parentage rules, and the listing query.
 */
module CatSchemas {
  import opened Wrappers
  import opened Zod
  import opened Models

  /* ------------------------------ Coercers ------------------------------ */

  /** The integer `zInt` makes of a number or of a string that converts to a finite number. */
  predicate IntFits(prim: Primitives, x: Raw) {
    (x.RNumber? && !x.fraction) || (x.RString? && prim.numberOf(x.s).Some?)
  }

  /** Field `key` is missing or holds an integer `zInt` accepts. */
  predicate IntAbsentOr(prim: Primitives, f: map<string, Raw>, key: string) {
    key !in f || IntFits(prim, f[key])
  }

  /** Field `key` holds a string that is not a finite number: `zInt` throws on it. */
  predicate IntThrows(prim: Primitives, f: map<string, Raw>, key: string) {
    key in f && f[key].RString? && prim.numberOf(f[key].s).None?
  }

  function IntOf(prim: Primitives, x: Raw): int
    requires IntFits(prim, x)
  {
    if x.RNumber? then x.whole else prim.numberOf(x.s).value
  }

  /**
   * `zInt`: an integral number passes; a string goes through `Number` and
   * `Math.trunc`, and one that is not finite makes the transform throw
   * "Expected integer"; a number with a fraction is reported by the `.int()`
   * check; anything else (a missing value too) matches no member of the union.
   */
  function ZInt(prim: Primitives, path: Path, v: Option<Raw>): (r: Field<int>)
    ensures r.Good? <==> v.Some? && IntFits(prim, v.value)
    ensures r.Good? ==> r.value == IntOf(prim, v.value)
    ensures r.Threw? <==> v.Some? && v.value.RString? && prim.numberOf(v.value.s).None?
    ensures r.Threw? ==> r.message == "Expected integer"
    ensures r.Dirty? <==> v.Some? && v.value.RNumber? && v.value.fraction
    ensures r.Bad? ==> r.issues == [UnionIssue(path)]
    ensures r.Under(path)
  {
    match v
    case Some(RNumber(w, fraction)) =>
      if fraction then Dirty([Issue(path, InvalidType, "Expected integer, received float")]) else Good(w)
    case Some(RString(s)) =>
      (match prim.numberOf(s)
       case Some(n) => Good(n)
       case None => Threw("Expected integer"))
    case _ => Bad([UnionIssue(path)])
  }

  /** `values.join(", ")`. */
  function Join(values: seq<string>): string
    decreases |values|
  {
    if values == [] then "" else if |values| == 1 then values[0] else values[0] + ", " + Join(values[1..])
  }

  function EnumMessage(values: seq<string>): string {
    "Invalid enum value. Expected one of: " + Join(values)
  }

  /**
   * `zEnum(values)`: a string is accepted exactly when it is one of `values`
   * (case-sensitively) and comes back unchanged; any other string makes the
   * transform throw a message listing the allowed values; a non-string matches
   * no member of the union.
   */
  function ZEnum(values: seq<string>, path: Path, v: Option<Raw>): (r: Field<string>)
    ensures r.Good? <==> v.Some? && v.value.RString? && v.value.s in values
    ensures r.Good? ==> r.value == v.value.s
    ensures r.Threw? <==> v.Some? && v.value.RString? && v.value.s !in values
    ensures r.Threw? ==> r.message == EnumMessage(values)
    ensures !r.Dirty? && r.Under(path)
  {
    match v
    case Some(RString(s)) => if s in values then Good(s) else Threw(EnumMessage(values))
    case _ => Bad([UnionIssue(path)])
  }

  function ZGender(path: Path, v: Option<Raw>): (r: Field<Gender>)
    ensures r.Verdict() == ZEnum(GenderNames, path, v).Verdict()
    ensures r.Good? ==> v == Some(RString(GenderName(r.value)))
  {
    ZEnum(GenderNames, path, v).Map(GenderFrom)
  }

  function ZCatType(path: Path, v: Option<Raw>): (r: Field<CatType>)
    ensures r.Verdict() == ZEnum(CatTypeNames, path, v).Verdict()
    ensures r.Good? ==> v == Some(RString(CatTypeName(r.value)))
  {
    ZEnum(CatTypeNames, path, v).Map(CatTypeFrom)
  }

  function ZStatus(path: Path, v: Option<Raw>): (r: Field<Status>)
    ensures r.Verdict() == ZEnum(StatusNames, path, v).Verdict()
    ensures r.Good? ==> v == Some(RString(StatusName(r.value)))
  {
    ZEnum(StatusNames, path, v).Map(StatusFrom)
  }

  predicate IsDigit(c: char) {
    '0' <= c <= '9'
  }

  predicate AllDigits(s: string) {
    forall k | 0 <= k < |s| :: IsDigit(s[k])
  }

  /** `/^\d{4}-\d{2}-\d{2}$/`: four digits, a dash, two digits, a dash, two digits, nothing else. */
  predicate IsDateOnly(s: string) {
    |s| == 10 && forall k | 0 <= k < 10 :: if k == 4 || k == 7 then s[k] == '-' else IsDigit(s[k])
  }

  /** Any year, month and day of the right widths form an accepted date. */
  lemma DateOnlyFromParts(y: string, m: string, d: string)
    requires |y| == 4 && |m| == 2 && |d| == 2
    requires AllDigits(y) && AllDigits(m) && AllDigits(d)
    ensures IsDateOnly(y + "-" + m + "-" + d)
  {
    var s := y + "-" + m + "-" + d;
    forall k | 0 <= k < 10
      ensures if k == 4 || k == 7 then s[k] == '-' else IsDigit(s[k])
    {
      if k < 4 { assert s[k] == y[k]; }
      else if 4 < k < 7 { assert s[k] == m[k - 5]; }
      else if 7 < k { assert s[k] == d[k - 8]; }
    }
  }

  /** Every accepted date is a year, a month and a day of the right widths. */
  lemma DateOnlyParts(s: string)
    requires IsDateOnly(s)
    ensures s == s[..4] + "-" + s[5..7] + "-" + s[8..]
    ensures AllDigits(s[..4]) && AllDigits(s[5..7]) && AllDigits(s[8..]) && |s[8..]| == 2
  {
    assert forall k | 0 <= k < 2 :: s[5..7][k] == s[5 + k] && s[8..][k] == s[8 + k];
    assert forall k | 0 <= k < 4 :: s[..4][k] == s[k];
  }

  const DateMessage: string := "Invalid date format (expected YYYY-MM-DD)"

  /**
   * `zDateOnly` on the values a JSON body or a query can hold: a string that
   * is empty or matches the date pattern is accepted, the empty string as
   * absent; any other string is reported; a non-string matches no member of
   * the union.
   */
  function ZDateOnly(path: Path, v: Option<Raw>): (r: Field<Option<string>>)
    ensures r.Good? <==> v.Some? && v.value.RString? && (v.value.s == "" || IsDateOnly(v.value.s))
    ensures r.Good? ==> r.value == if v.value.s == "" then None else Some(v.value.s)
    ensures r.Dirty? <==> v.Some? && v.value.RString? && v.value.s != "" && !IsDateOnly(v.value.s)
    ensures r.Dirty? ==> r.issues == [Issue(path, Custom, DateMessage)]
    ensures !r.Threw? && r.Under(path)
  {
    match v
    case Some(RString(s)) =>
      if s == "" then Good(None)
      else if IsDateOnly(s) then Good(Some(s))
      else Dirty([Issue(path, Custom, DateMessage)])
    case _ => Bad([UnionIssue(path)])
  }

  /** `zDateOnly.optional()`: missing and empty both come out absent. */
  function OptionalDate(path: Path, v: Option<Raw>): (r: Field<Option<string>>)
    ensures r.Good? <==> v.None? || (v.value.RString? && (v.value.s == "" || IsDateOnly(v.value.s)))
    ensures r.Good? && r.value.None? <==> v.None? || v == Some(RString(""))
    ensures r.Good? && r.value.Some? ==> v == Some(RString(r.value.value)) && IsDateOnly(r.value.value)
    ensures r.Dirty? ==> r.issues == [Issue(path, Custom, DateMessage)]
    ensures !r.Threw? && r.Under(path)
  {
    if v.None? then Good(None) else ZDateOnly(path, v)
  }

  /* ---------------------------- Sort grammar ---------------------------- */

  predicate IsFieldChar(c: char) {
    ('a' <= c <= 'z') || ('A' <= c <= 'Z') || c == '_'
  }

  function LowerAscii(c: char): char {
    if 'A' <= c <= 'Z' then (c as int + 32) as char else c
  }

  /** Equal up to the case of ASCII letters (the `i` flag of a regular expression). */
  predicate SameIgnoringCase(a: string, b: string) {
    |a| == |b| && forall k | 0 <= k < |a| :: LowerAscii(a[k]) == LowerAscii(b[k])
  }

  predicate IsDirectionText(t: string) {
    SameIgnoringCase(t, "asc") || SameIgnoringCase(t, "desc")
  }

  /** The index of the first ':' in `s`, or `|s|` when there is none. */
  function ColonIndex(s: string): (i: nat)
    ensures i <= |s|
    ensures i < |s| ==> s[i] == ':'
    ensures forall j | 0 <= j < i :: s[j] != ':'
    decreases |s|
  {
    if s == [] then 0 else if s[0] == ':' then 0 else 1 + ColonIndex(s[1..])
  }

  /** `/^[a-zA-Z_]+:(asc|desc)$/i`, decided at the first colon. */
  predicate SortMatches(s: string) {
    var i := ColonIndex(s);
    0 < i < |s| && (forall j | 0 <= j < i :: IsFieldChar(s[j])) && IsDirectionText(s[i + 1..])
  }

  /** The regular expression's own reading: some split of `s` into a field name, a colon and a direction. */
  ghost predicate SortShape(s: string) {
    exists k | 0 < k < |s| :: s[k] == ':' && (forall j | 0 <= j < k :: IsFieldChar(s[j])) && IsDirectionText(s[k + 1..])
  }

  lemma SortMatchesIff(s: string)
    ensures SortMatches(s) <==> SortShape(s)
  {
    if SortShape(s) {
      var k :| 0 < k < |s| && s[k] == ':' && (forall j | 0 <= j < k :: IsFieldChar(s[j])) && IsDirectionText(s[k + 1..]);
      var i := ColonIndex(s);
      assert forall j | 0 <= j < k :: s[j] != ':';
      assert i == k;
    }
  }

  /** A well-formed field name followed by ':' and a direction in any letter case is accepted. */
  lemma SortAccepts(field: string, dir: string)
    requires |field| > 0 && forall j | 0 <= j < |field| :: IsFieldChar(field[j])
    requires IsDirectionText(dir)
    ensures SortMatches(field + ":" + dir)
  {
    var s := field + ":" + dir;
    assert s[|field|] == ':';
    assert s[|field| + 1..] == dir;
    assert forall j | 0 <= j < |field| :: s[j] == field[j];
    SortMatchesIff(s);
  }

  /** `z.string().regex(sort pattern, message)`; a mismatch is reported, not aborted. */
  function ZSort(path: Path, v: Option<Raw>, message: string): (r: Field<string>)
    ensures r.Good? <==> v.Some? && v.value.RString? && SortMatches(v.value.s)
    ensures r.Good? ==> r.value == v.value.s
    ensures r.Dirty? <==> v.Some? && v.value.RString? && !SortMatches(v.value.s)
    ensures r.Dirty? ==> r.issues == [Issue(path, InvalidString, message)]
    ensures !r.Threw? && r.Under(path)
  {
    match v
    case Some(RString(s)) => if SortMatches(s) then Good(s) else Dirty([Issue(path, InvalidString, message)])
    case _ => Bad([TypeIssue(path, "string", v)])
  }

  /* ------------------------- Parentage rules ---------------------------- */

  /** How the refinement sees one optional field: missing, or present and truthy or falsy. */
  datatype Seen = Unset | Given(truthy: bool) {
    predicate Truthy() {
      Given? && truthy
    }
  }

  /** What the parentage rules look at. */
  datatype RuleView = RuleView(
    kind: Option<CatType>,
    fatherId: Seen,
    motherId: Seen,
    sireName: Seen,
    damName: Seen,
    sireRegistration: Seen,
    damRegistration: Seen)

  /**
   * A parent id as the refinement sees it: 0 (from a number or a string) is
   * falsy; a number with a fraction, which the `.int()` check reports without
   * aborting, is truthy.
   */
  function IdSeen(prim: Primitives, v: Option<Raw>): Seen {
    match v
    case None => Unset
    case Some(RNumber(w, fraction)) => Given(w != 0 || fraction)
    case Some(RString(s)) => Given(prim.numberOf(s) != Some(0))
    case Some(_) => Given(true)
  }

  /** A text field as the refinement sees it: only the empty string is falsy. */
  function TextSeen(v: Option<Raw>): Seen {
    match v
    case None => Unset
    case Some(RString(s)) => Given(s != "")
    case Some(_) => Given(true)
  }

  /** The type as the refinement compares it: only an exact spelling makes a kitten or a breeder. */
  function KindSeen(v: Option<Raw>): (k: Option<CatType>)
    ensures k.Some? ==> v == Some(RString(CatTypeName(k.value)))
    ensures v.Some? && v.value.RString? && v.value.s in CatTypeNames ==> k.Some?
  {
    if v == Some(RString("kitten")) then Some(Kitten)
    else if v == Some(RString("breeder")) then Some(Breeder)
    else None
  }

  /** The view of a body whose fields all parsed without aborting. */
  function ViewOf(prim: Primitives, f: map<string, Raw>): RuleView {
    RuleView(
      KindSeen(Lookup(f, "type")),
      IdSeen(prim, Lookup(f, "fatherId")),
      IdSeen(prim, Lookup(f, "motherId")),
      TextSeen(Lookup(f, "sireName")),
      TextSeen(Lookup(f, "damName")),
      TextSeen(Lookup(f, "sireRegistration")),
      TextSeen(Lookup(f, "damRegistration")))
  }

  function RuleIssue(field: string, message: string): Issue {
    Issue(FieldPath(field), Custom, message)
  }

  /** Some issue of `issues` is about top-level field `field`. */
  predicate FlagsField(issues: seq<Issue>, field: string) {
    exists i | i in issues :: i.path == FieldPath(field)
  }

  /** The six fields the parentage rules look at, in the order the rules are checked. */
  const ParentageFields: seq<string> := ["fatherId", "motherId", "sireName", "damName", "sireRegistration", "damRegistration"]

  predicate Distinct(names: seq<string>) {
    forall a, b | 0 <= a < b < |names| :: names[a] != names[b]
  }

  lemma ParentageFieldsDistinct()
    ensures Distinct(ParentageFields)
  {
  }

  /**
   * The issues a run of rules raises: `slots[k]` is the message of the rule on
   * field `names[k]` when it fails, and the issues come out in slot order.
   */
  function Raise(slots: seq<Option<string>>, names: seq<string>): (issues: seq<Issue>)
    requires |slots| == |names|
    ensures forall i | i in issues :: exists k | 0 <= k < |names| :: slots[k].Some? && i == RuleIssue(names[k], slots[k].value)
    decreases |slots|
  {
    if slots == [] then []
    else (if slots[0].Some? then [RuleIssue(names[0], slots[0].value)] else []) + Raise(slots[1..], names[1..])
  }

  /** A field missing from `names` is never flagged. */
  lemma {:induction false} RaiseOthers(slots: seq<Option<string>>, names: seq<string>, n: string)
    requires |slots| == |names| && n !in names
    ensures !FlagsField(Raise(slots, names), n)
    decreases |slots|
  {
    if slots != [] {
      RaiseOthers(slots[1..], names[1..], n);
    }
  }

  /** Rules that all hold raise nothing. */
  lemma {:induction false} RaiseNothing(slots: seq<Option<string>>, names: seq<string>)
    requires |slots| == |names| && forall k | 0 <= k < |slots| :: slots[k].None?
    ensures Raise(slots, names) == []
    decreases |slots|
  {
    if slots != [] {
      RaiseNothing(slots[1..], names[1..]);
    }
  }

  /** Field `names[k]` is flagged exactly when its rule fails, and then with that rule's message. */
  lemma {:induction false} RaiseFlags(slots: seq<Option<string>>, names: seq<string>, k: nat)
    requires |slots| == |names| && Distinct(names) && k < |names|
    ensures FlagsField(Raise(slots, names), names[k]) <==> slots[k].Some?
    ensures slots[k].Some? ==> RuleIssue(names[k], slots[k].value) in Raise(slots, names)
    decreases |slots|
  {
    if k > 0 {
      RaiseFlags(slots[1..], names[1..], k - 1);
      assert names[1..][k - 1] == names[k];
      assert slots[1..][k - 1] == slots[k];
    } else {
      assert forall j | 0 <= j < |names[1..]| :: names[1..][j] == names[j + 1];
      RaiseOthers(slots[1..], names[1..], names[0]);
      if slots[0].Some? {
        assert RuleIssue(names[0], slots[0].value) in Raise(slots, names);
      }
    }
  }

  /** A rule reports no field twice. */
  lemma {:induction false} RaiseOnce(slots: seq<Option<string>>, names: seq<string>)
    requires |slots| == |names| && Distinct(names)
    ensures forall a, b | 0 <= a < b < |Raise(slots, names)| :: Raise(slots, names)[a].path != Raise(slots, names)[b].path
    decreases |slots|
  {
    if slots != [] {
      assert forall j | 0 <= j < |names[1..]| :: names[1..][j] == names[j + 1];
      RaiseOnce(slots[1..], names[1..]);
      RaiseOthers(slots[1..], names[1..], names[0]);
    }
  }

  function Check(fails: bool, message: string): Option<string> {
    if fails then Some(message) else None
  }

  /** The create-time refinement's verdict on each parentage field, in `ParentageFields` order. */
  function CreateChecks(v: RuleView): (slots: seq<Option<string>>)
    ensures |slots| == |ParentageFields|
  {
    match v.kind
    case Some(Kitten) =>
      [Check(!v.fatherId.Truthy(), "fatherId is required for kittens"),
       Check(!v.motherId.Truthy(), "motherId is required for kittens"),
       Check(v.sireName.Truthy(), "sireName not allowed for kittens"),
       Check(v.damName.Truthy(), "damName not allowed for kittens"),
       Check(v.sireRegistration.Truthy(), "sireRegistration not allowed for kittens"),
       Check(v.damRegistration.Truthy(), "damRegistration not allowed for kittens")]
    case Some(Breeder) =>
      [Check(v.fatherId.Given?, "fatherId is not allowed for breeders"),
       Check(v.motherId.Given?, "motherId is not allowed for breeders"),
       None, None, None, None]
    case None => [None, None, None, None, None, None]
  }

  /** The issues the create-time refinement adds. */
  function CreateRules(v: RuleView): seq<Issue> {
    Raise(CreateChecks(v), ParentageFields)
  }

  /** Parentage field `k` is flagged on create exactly when its check fails. */
  lemma CreateFlag(v: RuleView, k: nat)
    requires k < |ParentageFields|
    ensures FlagsField(CreateRules(v), ParentageFields[k]) <==> CreateChecks(v)[k].Some?
    ensures CreateChecks(v)[k].Some? ==> RuleIssue(ParentageFields[k], CreateChecks(v)[k].value) in CreateRules(v)
  {
    ParentageFieldsDistinct();
    RaiseFlags(CreateChecks(v), ParentageFields, k);
  }

  /** Parentage field `k` is flagged on update exactly when its check fails. */
  lemma UpdateFlag(v: RuleView, k: nat)
    requires k < |ParentageFields|
    ensures FlagsField(UpdateRules(v), ParentageFields[k]) <==> UpdateChecks(v)[k].Some?
    ensures UpdateChecks(v)[k].Some? ==> RuleIssue(ParentageFields[k], UpdateChecks(v)[k].value) in UpdateRules(v)
  {
    ParentageFieldsDistinct();
    RaiseFlags(UpdateChecks(v), ParentageFields, k);
  }

  /**
   * On create, a kitten needs a truthy `fatherId` and a truthy `motherId` and
   * may not carry a non-empty sire or dam text; each broken rule is one issue
   * on its own field.
   */
  lemma CreateKittenRules(v: RuleView)
    requires v.kind == Some(Kitten)
    ensures FlagsField(CreateRules(v), "fatherId") <==> !v.fatherId.Truthy()
    ensures FlagsField(CreateRules(v), "motherId") <==> !v.motherId.Truthy()
    ensures FlagsField(CreateRules(v), "sireName") <==> v.sireName.Truthy()
    ensures FlagsField(CreateRules(v), "damName") <==> v.damName.Truthy()
    ensures FlagsField(CreateRules(v), "sireRegistration") <==> v.sireRegistration.Truthy()
    ensures FlagsField(CreateRules(v), "damRegistration") <==> v.damRegistration.Truthy()
    ensures !v.fatherId.Truthy() ==> RuleIssue("fatherId", "fatherId is required for kittens") in CreateRules(v)
    ensures !v.motherId.Truthy() ==> RuleIssue("motherId", "motherId is required for kittens") in CreateRules(v)
  {
    CreateKittenParentRules(v);
    CreateKittenTextRules(v);
  }

  lemma CreateKittenParentRules(v: RuleView)
    requires v.kind == Some(Kitten)
    ensures FlagsField(CreateRules(v), "fatherId") <==> !v.fatherId.Truthy()
    ensures FlagsField(CreateRules(v), "motherId") <==> !v.motherId.Truthy()
    ensures !v.fatherId.Truthy() ==> RuleIssue("fatherId", "fatherId is required for kittens") in CreateRules(v)
    ensures !v.motherId.Truthy() ==> RuleIssue("motherId", "motherId is required for kittens") in CreateRules(v)
  {
    CreateFlag(v, 0);
    CreateFlag(v, 1);
  }

  lemma CreateKittenTextRules(v: RuleView)
    requires v.kind == Some(Kitten)
    ensures FlagsField(CreateRules(v), "sireName") <==> v.sireName.Truthy()
    ensures FlagsField(CreateRules(v), "damName") <==> v.damName.Truthy()
    ensures FlagsField(CreateRules(v), "sireRegistration") <==> v.sireRegistration.Truthy()
    ensures FlagsField(CreateRules(v), "damRegistration") <==> v.damRegistration.Truthy()
  {
    CreateFlag(v, 2);
    CreateFlag(v, 3);
    CreateFlag(v, 4);
    CreateFlag(v, 5);
  }

  /** On create, a breeder may carry no parent id at all; its sire and dam texts are free. */
  lemma CreateBreederRules(v: RuleView)
    requires v.kind == Some(Breeder)
    ensures FlagsField(CreateRules(v), "fatherId") <==> v.fatherId.Given?
    ensures FlagsField(CreateRules(v), "motherId") <==> v.motherId.Given?
    ensures v.fatherId.Given? ==> RuleIssue("fatherId", "fatherId is not allowed for breeders") in CreateRules(v)
    ensures v.motherId.Given? ==> RuleIssue("motherId", "motherId is not allowed for breeders") in CreateRules(v)
    ensures forall i | i in CreateRules(v) :: i.path == FieldPath("fatherId") || i.path == FieldPath("motherId")
  {
    ParentageFieldsDistinct();
    RaiseFlags(CreateChecks(v), ParentageFields, 0);
    RaiseFlags(CreateChecks(v), ParentageFields, 1);
  }

  /** The update-time refinement's verdict on each parentage field, in `ParentageFields` order. */
  function UpdateChecks(v: RuleView): (slots: seq<Option<string>>)
    ensures |slots| == |ParentageFields|
  {
    match v.kind
    case Some(Kitten) =>
      var parents := v.fatherId.Given? || v.motherId.Given?;
      [Check(parents && v.fatherId.Unset?, "fatherId is required when updating a kitten's parents"),
       Check(parents && v.motherId.Unset?, "motherId is required when updating a kitten's parents"),
       Check(v.sireName.Given?, "sireName not allowed for kittens"),
       Check(v.damName.Given?, "damName not allowed for kittens"),
       Check(v.sireRegistration.Given?, "sireRegistration not allowed for kittens"),
       Check(v.damRegistration.Given?, "damRegistration not allowed for kittens")]
    case Some(Breeder) =>
      [Check(v.fatherId.Given?, "fatherId is not allowed for breeders"),
       Check(v.motherId.Given?, "motherId is not allowed for breeders"),
       None, None, None, None]
    case None => [None, None, None, None, None, None]
  }

  /** The issues the update-time refinement adds. */
  function UpdateRules(v: RuleView): seq<Issue> {
    Raise(UpdateChecks(v), ParentageFields)
  }

  /** On update, a payload without a `type` is not checked at all. */
  lemma UpdateUntypedRules(v: RuleView)
    requires v.kind.None?
    ensures UpdateRules(v) == []
  {
    RaiseNothing(UpdateChecks(v), ParentageFields);
  }

  /**
   * On update, a kitten may leave out both parent ids, but one given without
   * the other flags the missing one; any sire or dam field given, even empty,
   * is flagged.
   */
  lemma UpdateKittenRules(v: RuleView)
    requires v.kind == Some(Kitten)
    ensures FlagsField(UpdateRules(v), "fatherId") <==> v.fatherId.Unset? && v.motherId.Given?
    ensures FlagsField(UpdateRules(v), "motherId") <==> v.motherId.Unset? && v.fatherId.Given?
    ensures FlagsField(UpdateRules(v), "sireName") <==> v.sireName.Given?
    ensures FlagsField(UpdateRules(v), "damName") <==> v.damName.Given?
    ensures FlagsField(UpdateRules(v), "sireRegistration") <==> v.sireRegistration.Given?
    ensures FlagsField(UpdateRules(v), "damRegistration") <==> v.damRegistration.Given?
  {
    UpdateKittenParentRules(v);
    UpdateKittenTextRules(v);
  }

  lemma UpdateKittenParentRules(v: RuleView)
    requires v.kind == Some(Kitten)
    ensures FlagsField(UpdateRules(v), "fatherId") <==> v.fatherId.Unset? && v.motherId.Given?
    ensures FlagsField(UpdateRules(v), "motherId") <==> v.motherId.Unset? && v.fatherId.Given?
  {
    var checks := UpdateChecks(v);
    var parents := v.fatherId.Given? || v.motherId.Given?;
    assert checks[0] == Check(parents && v.fatherId.Unset?, "fatherId is required when updating a kitten's parents");
    assert checks[1] == Check(parents && v.motherId.Unset?, "motherId is required when updating a kitten's parents");
    UpdateFlag(v, 0);
    UpdateFlag(v, 1);
  }

  lemma UpdateKittenTextRules(v: RuleView)
    requires v.kind == Some(Kitten)
    ensures FlagsField(UpdateRules(v), "sireName") <==> v.sireName.Given?
    ensures FlagsField(UpdateRules(v), "damName") <==> v.damName.Given?
    ensures FlagsField(UpdateRules(v), "sireRegistration") <==> v.sireRegistration.Given?
    ensures FlagsField(UpdateRules(v), "damRegistration") <==> v.damRegistration.Given?
  {
    UpdateKittenSireRules(v);
    UpdateKittenDamRules(v);
  }

  lemma UpdateKittenSireRules(v: RuleView)
    requires v.kind == Some(Kitten)
    ensures FlagsField(UpdateRules(v), "sireName") <==> v.sireName.Given?
    ensures FlagsField(UpdateRules(v), "sireRegistration") <==> v.sireRegistration.Given?
  {
    var checks := UpdateChecks(v);
    assert checks[2] == Check(v.sireName.Given?, "sireName not allowed for kittens");
    assert checks[4] == Check(v.sireRegistration.Given?, "sireRegistration not allowed for kittens");
    UpdateFlag(v, 2);
    UpdateFlag(v, 4);
  }

  lemma UpdateKittenDamRules(v: RuleView)
    requires v.kind == Some(Kitten)
    ensures FlagsField(UpdateRules(v), "damName") <==> v.damName.Given?
    ensures FlagsField(UpdateRules(v), "damRegistration") <==> v.damRegistration.Given?
  {
    var checks := UpdateChecks(v);
    assert checks[3] == Check(v.damName.Given?, "damName not allowed for kittens");
    assert checks[5] == Check(v.damRegistration.Given?, "damRegistration not allowed for kittens");
    UpdateFlag(v, 3);
    UpdateFlag(v, 5);
  }

  /** On update, a breeder may be given no parent id. */
  lemma UpdateBreederRules(v: RuleView)
    requires v.kind == Some(Breeder)
    ensures FlagsField(UpdateRules(v), "fatherId") <==> v.fatherId.Given?
    ensures FlagsField(UpdateRules(v), "motherId") <==> v.motherId.Given?
    ensures v.fatherId.Given? ==> RuleIssue("fatherId", "fatherId is not allowed for breeders") in UpdateRules(v)
    ensures v.motherId.Given? ==> RuleIssue("motherId", "motherId is not allowed for breeders") in UpdateRules(v)
    ensures forall i | i in UpdateRules(v) :: i.path == FieldPath("fatherId") || i.path == FieldPath("motherId")
  {
    ParentageFieldsDistinct();
    RaiseFlags(UpdateChecks(v), ParentageFields, 0);
    RaiseFlags(UpdateChecks(v), ParentageFields, 1);
  }

  /** Each refinement reports each parentage field at most once, with a custom issue on that field alone. */
  lemma RulesFlagOnce(v: RuleView)
    ensures forall i | i in CreateRules(v) + UpdateRules(v) :: i.code == Custom && |i.path| == 1 && i.path[0].name in ParentageFields
    ensures forall a, b | 0 <= a < b < |CreateRules(v)| :: CreateRules(v)[a].path != CreateRules(v)[b].path
    ensures forall a, b | 0 <= a < b < |UpdateRules(v)| :: UpdateRules(v)[a].path != UpdateRules(v)[b].path
  {
    ParentageFieldsDistinct();
    RaiseOnce(CreateChecks(v), ParentageFields);
    RaiseOnce(UpdateChecks(v), ParentageFields);
  }

  /* ---------------------------- Create schema --------------------------- */

  /** The normalised create payload; absent optional fields are `None`. */
  datatype CatDraft = CatDraft(
    name: string,
    gender: Gender,
    kind: CatType,
    birthDate: Option<string>,
    status: Option<Status>,
    fatherId: Option<int>,
    motherId: Option<int>,
    sireName: Option<string>,
    damName: Option<string>,
    sireRegistration: Option<string>,
    damRegistration: Option<string>)

  /** The create schema's fields as parsed one by one, in declaration order. */
  datatype CreateFields = CreateFields(
    name: Field<string>,
    gender: Field<Gender>,
    kind: Field<CatType>,
    birthDate: Field<Option<string>>,
    status: Field<Option<Status>>,
    fatherId: Field<Option<int>>,
    motherId: Field<Option<int>>,
    sireName: Field<Option<string>>,
    damName: Field<Option<string>>,
    sireRegistration: Field<Option<string>>,
    damRegistration: Field<Option<string>>)
  {
    function Verdicts(): seq<Verdict> {
      [name.Verdict(), gender.Verdict(), kind.Verdict(), birthDate.Verdict(), status.Verdict(),
       fatherId.Verdict(), motherId.Verdict(), sireName.Verdict(), damName.Verdict(),
       sireRegistration.Verdict(), damRegistration.Verdict()]
    }

    predicate AllGood() {
      && name.Good? && gender.Good? && kind.Good? && birthDate.Good? && status.Good?
      && fatherId.Good? && motherId.Good? && sireName.Good? && damName.Good?
      && sireRegistration.Good? && damRegistration.Good?
    }

    lemma CleanIsGood()
      requires Merge(Verdicts()).Clean?
      ensures AllGood()
    {
      MergeClean(Verdicts());
    }

    /** The object's result once the refinement has raised `rules`. */
    function Refine(rules: seq<Issue>): (r: Parse<CatDraft>)
      ensures r.Parsed? ==> AllGood() && r.value == Draft() && rules == []
    {
      var m := Merge(Verdicts());
      if m.Clean? then CleanIsGood(); Refined(m, Some(Draft()), rules)
      else Refined(m, None, rules)
    }

    function Draft(): CatDraft
      requires AllGood()
    {
      CatDraft(name.value, gender.value, kind.value, birthDate.value, status.value,
               fatherId.value, motherId.value, sireName.value, damName.value,
               sireRegistration.value, damRegistration.value)
    }
  }

  function OptionalText(name: string, f: map<string, Raw>): Field<Option<string>> {
    Optional(Lookup(f, name), ZString(FieldPath(name), Lookup(f, name)))
  }

  function OptionalInt(prim: Primitives, name: string, f: map<string, Raw>): Field<Option<int>> {
    Optional(Lookup(f, name), ZInt(prim, FieldPath(name), Lookup(f, name)))
  }

  function CreateFieldsOf(prim: Primitives, f: map<string, Raw>): CreateFields {
    CreateFields(
      ZNonEmptyString(FieldPath("name"), Lookup(f, "name"), "name is required"),
      ZGender(FieldPath("gender"), Lookup(f, "gender")),
      ZCatType(FieldPath("type"), Lookup(f, "type")),
      OptionalDate(FieldPath("birthDate"), Lookup(f, "birthDate")),
      Optional(Lookup(f, "status"), ZStatus(FieldPath("status"), Lookup(f, "status"))),
      OptionalInt(prim, "fatherId", f),
      OptionalInt(prim, "motherId", f),
      OptionalText("sireName", f),
      OptionalText("damName", f),
      OptionalText("sireRegistration", f),
      OptionalText("damRegistration", f))
  }

  /** The issue a non-object body gets. */
  function NotAnObject(body: Raw): Issue {
    TypeIssue([], "object", Some(body))
  }

  /** `catCreateSchema.safeParse(body)`. */
  function ParseCatCreate(prim: Primitives, body: Raw): (r: Parse<CatDraft>)
    ensures !body.RObject? ==> r == Failed([NotAnObject(body)])
    ensures r.Parsed? ==>
      && body.RObject? && CreateFieldsOf(prim, body.fields).AllGood()
      && r.value == CreateFieldsOf(prim, body.fields).Draft()
      && CreateRules(ViewOf(prim, body.fields)) == []
  {
    match body
    case RObject(f) =>
      CreateFieldsOf(prim, f).Refine(CreateRules(ViewOf(prim, f)))
    case _ => Failed([NotAnObject(body)])
  }

  /** A parent id that parsed shows the refinement a truthy value exactly when it is not 0. */
  lemma IdSeenOfParsed(prim: Primitives, name: string, f: map<string, Raw>)
    requires OptionalInt(prim, name, f).Good?
    ensures IdSeen(prim, Lookup(f, name)).Unset? <==> OptionalInt(prim, name, f).value.None?
    ensures IdSeen(prim, Lookup(f, name)).Truthy() <==> OptionalInt(prim, name, f).value.Some? && OptionalInt(prim, name, f).value.value != 0
  {
  }

  /** A text that parsed shows the refinement a truthy value exactly when it is not empty. */
  lemma TextSeenOfParsed(name: string, f: map<string, Raw>)
    requires OptionalText(name, f).Good?
    ensures TextSeen(Lookup(f, name)).Unset? <==> OptionalText(name, f).value.None?
    ensures TextSeen(Lookup(f, name)).Truthy() <==> OptionalText(name, f).value.Some? && OptionalText(name, f).value.value != ""
  {
  }

  /** The create rules of a kitten raise nothing only with both parent ids truthy and no truthy sire or dam text. */
  lemma CreateKittenClean(v: RuleView)
    requires v.kind == Some(Kitten) && CreateRules(v) == []
    ensures v.fatherId.Truthy() && v.motherId.Truthy()
    ensures !v.sireName.Truthy() && !v.damName.Truthy() && !v.sireRegistration.Truthy() && !v.damRegistration.Truthy()
  {
    CreateKittenRules(v);
  }

  /** The create rules of a breeder raise nothing only when no parent id is given. */
  lemma CreateBreederClean(v: RuleView)
    requires v.kind == Some(Breeder) && CreateRules(v) == []
    ensures v.fatherId.Unset? && v.motherId.Unset?
  {
    CreateBreederRules(v);
  }

  /** What the create rules see of a body whose fields all parsed: the type, and which fields are present and truthy. */
  lemma CreateViewOfDraft(prim: Primitives, f: map<string, Raw>)
    requires CreateFieldsOf(prim, f).AllGood()
    ensures var v := ViewOf(prim, f); var d := CreateFieldsOf(prim, f).Draft();
      && v.kind == Some(d.kind)
      && (v.fatherId.Unset? <==> d.fatherId.None?) && (v.motherId.Unset? <==> d.motherId.None?)
      && (v.fatherId.Truthy() <==> d.fatherId.Some? && d.fatherId.value != 0)
      && (v.motherId.Truthy() <==> d.motherId.Some? && d.motherId.value != 0)
      && (v.sireName.Truthy() <==> d.sireName.Some? && d.sireName.value != "")
      && (v.damName.Truthy() <==> d.damName.Some? && d.damName.value != "")
      && (v.sireRegistration.Truthy() <==> d.sireRegistration.Some? && d.sireRegistration.value != "")
      && (v.damRegistration.Truthy() <==> d.damRegistration.Some? && d.damRegistration.value != "")
  {
    IdSeenOfParsed(prim, "fatherId", f);
    IdSeenOfParsed(prim, "motherId", f);
    TextSeenOfParsed("sireName", f);
    TextSeenOfParsed("damName", f);
    TextSeenOfParsed("sireRegistration", f);
    TextSeenOfParsed("damRegistration", f);
  }

  /**
   * A kitten is accepted on create only with a non-zero father and mother id
   * and with every sire and dam text absent or empty (an empty one is kept as
   * the empty string).
   */
  lemma CreateAcceptedKitten(prim: Primitives, f: map<string, Raw>)
    requires ParseCatCreate(prim, RObject(f)).Parsed?
    requires ParseCatCreate(prim, RObject(f)).value.kind == Kitten
    ensures var d := ParseCatCreate(prim, RObject(f)).value;
      && d.fatherId.Some? && d.fatherId.value != 0
      && d.motherId.Some? && d.motherId.value != 0
      && d.sireName in {None, Some("")} && d.damName in {None, Some("")}
      && d.sireRegistration in {None, Some("")} && d.damRegistration in {None, Some("")}
  {
    var v := ViewOf(prim, f);
    CreateViewOfDraft(prim, f);
    CreateKittenClean(v);
  }

  /** A breeder is accepted on create only without parent ids. */
  lemma CreateAcceptedBreeder(prim: Primitives, f: map<string, Raw>)
    requires ParseCatCreate(prim, RObject(f)).Parsed?
    requires ParseCatCreate(prim, RObject(f)).value.kind == Breeder
    ensures ParseCatCreate(prim, RObject(f)).value.fatherId.None?
    ensures ParseCatCreate(prim, RObject(f)).value.motherId.None?
  {
    var v := ViewOf(prim, f);
    CreateViewOfDraft(prim, f);
    CreateBreederClean(v);
  }

  /** When no field threw or aborted, every issue of the refinement is reported, after the fields' own issues. */
  lemma CreateRulesReported(prim: Primitives, f: map<string, Raw>)
    requires var m := Merge(CreateFieldsOf(prim, f).Verdicts()); !m.Raised? && !m.Broken?
    ensures var r := ParseCatCreate(prim, RObject(f)); var rules := CreateRules(ViewOf(prim, f));
      && (r.Parsed? <==> Merge(CreateFieldsOf(prim, f).Verdicts()).Clean? && rules == [])
      && (!r.Parsed? ==> r.Failed? && r.issues == Merge(CreateFieldsOf(prim, f).Verdicts()).Issues() + rules)
  {
  }

  /** When a field throws, the parse ends with that exception and no issue is collected. */
  lemma CreateThrows(prim: Primitives, f: map<string, Raw>)
    requires Merge(CreateFieldsOf(prim, f).Verdicts()).Raised?
    ensures ParseCatCreate(prim, RObject(f)) == Thrown(Merge(CreateFieldsOf(prim, f).Verdicts()).message)
  {
  }

  /** When a field aborts the object, the refinement does not run: only the fields' issues are reported. */
  lemma CreateAbortSkipsRules(prim: Primitives, f: map<string, Raw>)
    requires Merge(CreateFieldsOf(prim, f).Verdicts()).Broken?
    ensures ParseCatCreate(prim, RObject(f)) == Failed(AllIssues(CreateFieldsOf(prim, f).Verdicts()))
  {
    MergeIssues(CreateFieldsOf(prim, f).Verdicts());
  }

  /* ---------------------------- Update schema --------------------------- */

  /** The normalised update payload: only the fields it carries are `Some`. */
  datatype CatPatch = CatPatch(
    name: Option<string>,
    gender: Option<Gender>,
    kind: Option<CatType>,
    birthDate: Option<string>,
    status: Option<Status>,
    fatherId: Option<int>,
    motherId: Option<int>,
    sireName: Option<string>,
    damName: Option<string>,
    sireRegistration: Option<string>,
    damRegistration: Option<string>)

  datatype UpdateFields = UpdateFields(
    name: Field<Option<string>>,
    gender: Field<Option<Gender>>,
    kind: Field<Option<CatType>>,
    birthDate: Field<Option<string>>,
    status: Field<Option<Status>>,
    fatherId: Field<Option<int>>,
    motherId: Field<Option<int>>,
    sireName: Field<Option<string>>,
    damName: Field<Option<string>>,
    sireRegistration: Field<Option<string>>,
    damRegistration: Field<Option<string>>)
  {
    function Verdicts(): seq<Verdict> {
      [name.Verdict(), gender.Verdict(), kind.Verdict(), birthDate.Verdict(), status.Verdict(),
       fatherId.Verdict(), motherId.Verdict(), sireName.Verdict(), damName.Verdict(),
       sireRegistration.Verdict(), damRegistration.Verdict()]
    }

    predicate AllGood() {
      && name.Good? && gender.Good? && kind.Good? && birthDate.Good? && status.Good?
      && fatherId.Good? && motherId.Good? && sireName.Good? && damName.Good?
      && sireRegistration.Good? && damRegistration.Good?
    }

    /** The object's result once the refinement has raised `rules`. */
    function Refine(rules: seq<Issue>): (r: Parse<CatPatch>)
      ensures r.Parsed? ==> AllGood() && r.value == Patch() && rules == []
    {
      var m := Merge(Verdicts());
      if m.Clean? then MergeClean(Verdicts()); Refined(m, Some(Patch()), rules)
      else Refined(m, None, rules)
    }

    /** With no rule issue, the result is that of the fields alone. */
    lemma RefineNothing()
      ensures Refine([]).Parsed? <==> Merge(Verdicts()).Clean?
      ensures Refine([]).Failed? ==> Refine([]).issues == AllIssues(Verdicts())
    {
      var m := Merge(Verdicts());
      MergeIssues(Verdicts());
      if m.Clean? {
        MergeClean(Verdicts());
        RefinedWithoutRules(m, Some(Patch()));
      } else {
        RefinedWithoutRules<CatPatch>(m, None);
      }
    }

    function Patch(): CatPatch
      requires AllGood()
    {
      CatPatch(name.value, gender.value, kind.value, birthDate.value, status.value,
               fatherId.value, motherId.value, sireName.value, damName.value,
               sireRegistration.value, damRegistration.value)
    }
  }

  function UpdateFieldsOf(prim: Primitives, f: map<string, Raw>): UpdateFields {
    UpdateFields(
      Optional(Lookup(f, "name"), ZNonEmptyString(FieldPath("name"), Lookup(f, "name"), "String must contain at least 1 character(s)")),
      Optional(Lookup(f, "gender"), ZGender(FieldPath("gender"), Lookup(f, "gender"))),
      Optional(Lookup(f, "type"), ZCatType(FieldPath("type"), Lookup(f, "type"))),
      OptionalDate(FieldPath("birthDate"), Lookup(f, "birthDate")),
      Optional(Lookup(f, "status"), ZStatus(FieldPath("status"), Lookup(f, "status"))),
      OptionalInt(prim, "fatherId", f),
      OptionalInt(prim, "motherId", f),
      OptionalText("sireName", f),
      OptionalText("damName", f),
      OptionalText("sireRegistration", f),
      OptionalText("damRegistration", f))
  }

  /** `catUpdateSchema.safeParse(body)`. */
  function ParseCatUpdate(prim: Primitives, body: Raw): (r: Parse<CatPatch>)
    ensures !body.RObject? ==> r == Failed([NotAnObject(body)])
    ensures r.Parsed? ==>
      && body.RObject? && UpdateFieldsOf(prim, body.fields).AllGood()
      && r.value == UpdateFieldsOf(prim, body.fields).Patch()
      && UpdateRules(ViewOf(prim, body.fields)) == []
  {
    match body
    case RObject(f) =>
      UpdateFieldsOf(prim, f).Refine(UpdateRules(ViewOf(prim, f)))
    case _ => Failed([NotAnObject(body)])
  }

  /** On update, a payload without `type` gets no rule issue: the outcome is that of its fields alone. */
  lemma UpdateUntyped(prim: Primitives, f: map<string, Raw>)
    requires "type" !in f
    ensures var r := ParseCatUpdate(prim, RObject(f)); var vs := UpdateFieldsOf(prim, f).Verdicts();
      && (r.Parsed? <==> Merge(vs).Clean?)
      && (r.Failed? ==> r.issues == AllIssues(vs))
  {
    UpdateUntypedRules(ViewOf(prim, f));
    UpdateWithoutRules(prim, f);
  }

  lemma UpdateWithoutRules(prim: Primitives, f: map<string, Raw>)
    requires UpdateRules(ViewOf(prim, f)) == []
    ensures var r := ParseCatUpdate(prim, RObject(f)); var vs := UpdateFieldsOf(prim, f).Verdicts();
      && (r.Parsed? <==> Merge(vs).Clean?)
      && (r.Failed? ==> r.issues == AllIssues(vs))
  {
    UpdateFieldsOf(prim, f).RefineNothing();
  }

  /** When no field threw or aborted, every issue of the update refinement is reported, after the fields' own issues. */
  lemma UpdateRulesReported(prim: Primitives, f: map<string, Raw>)
    requires var m := Merge(UpdateFieldsOf(prim, f).Verdicts()); !m.Raised? && !m.Broken?
    ensures var r := ParseCatUpdate(prim, RObject(f)); var rules := UpdateRules(ViewOf(prim, f));
      && (r.Parsed? <==> Merge(UpdateFieldsOf(prim, f).Verdicts()).Clean? && rules == [])
      && (!r.Parsed? ==> r.Failed? && r.issues == Merge(UpdateFieldsOf(prim, f).Verdicts()).Issues() + rules)
  {
    var fs := UpdateFieldsOf(prim, f);
    assert ParseCatUpdate(prim, RObject(f)) == fs.Refine(UpdateRules(ViewOf(prim, f)));
  }

  /** What the update rules see of a body whose fields all parsed: the type, and which fields are present. */
  lemma UpdateViewOfPatch(prim: Primitives, f: map<string, Raw>)
    requires UpdateFieldsOf(prim, f).AllGood()
    ensures var v := ViewOf(prim, f); var p := UpdateFieldsOf(prim, f).Patch();
      && v.kind == p.kind
      && (v.fatherId.Unset? <==> p.fatherId.None?) && (v.motherId.Unset? <==> p.motherId.None?)
      && (v.sireName.Unset? <==> p.sireName.None?) && (v.damName.Unset? <==> p.damName.None?)
      && (v.sireRegistration.Unset? <==> p.sireRegistration.None?) && (v.damRegistration.Unset? <==> p.damRegistration.None?)
  {
    IdSeenOfParsed(prim, "fatherId", f);
    IdSeenOfParsed(prim, "motherId", f);
    TextSeenOfParsed("sireName", f);
    TextSeenOfParsed("damName", f);
    TextSeenOfParsed("sireRegistration", f);
    TextSeenOfParsed("damRegistration", f);
  }

  /**
   * An update that sets the type to kitten is accepted only with both parent
   * ids or neither, and with no sire or dam field at all.
   */
  lemma UpdateAcceptedKitten(prim: Primitives, f: map<string, Raw>)
    requires ParseCatUpdate(prim, RObject(f)).Parsed?
    requires ParseCatUpdate(prim, RObject(f)).value.kind == Some(Kitten)
    ensures var p := ParseCatUpdate(prim, RObject(f)).value;
      && (p.fatherId.Some? <==> p.motherId.Some?)
      && p.sireName.None? && p.damName.None? && p.sireRegistration.None? && p.damRegistration.None?
  {
    var v := ViewOf(prim, f);
    UpdateViewOfPatch(prim, f);
    UpdateKittenClean(v);
  }

  /** The update rules of a kitten raise nothing only when both or neither parent id is given, and no sire or dam field. */
  lemma UpdateKittenClean(v: RuleView)
    requires v.kind == Some(Kitten) && UpdateRules(v) == []
    ensures v.fatherId.Given? <==> v.motherId.Given?
    ensures v.sireName.Unset? && v.damName.Unset? && v.sireRegistration.Unset? && v.damRegistration.Unset?
  {
    UpdateKittenRules(v);
  }

  /** The update rules of a breeder raise nothing only when no parent id is given. */
  lemma UpdateBreederClean(v: RuleView)
    requires v.kind == Some(Breeder) && UpdateRules(v) == []
    ensures v.fatherId.Unset? && v.motherId.Unset?
  {
    UpdateBreederRules(v);
  }

  /** An update that sets the type to breeder is accepted only without parent ids. */
  lemma UpdateAcceptedBreeder(prim: Primitives, f: map<string, Raw>)
    requires ParseCatUpdate(prim, RObject(f)).Parsed?
    requires ParseCatUpdate(prim, RObject(f)).value.kind == Some(Breeder)
    ensures ParseCatUpdate(prim, RObject(f)).value.fatherId.None?
    ensures ParseCatUpdate(prim, RObject(f)).value.motherId.None?
  {
    var v := ViewOf(prim, f);
    UpdateViewOfPatch(prim, f);
    UpdateBreederClean(v);
  }

  /* ---------------------------- Listing query --------------------------- */

  datatype CatListQuery = CatListQuery(
    page: Option<int>,
    limit: Option<int>,
    kind: Option<CatType>,
    status: Option<Status>,
    gender: Option<Gender>,
    sort: Option<string>)

  const CatSortMessage: string := "sort must look like field:asc|desc"

  /** The listing schema's fields as parsed one by one, in declaration order. */
  datatype CatListFields = CatListFields(
    page: Field<Option<int>>,
    limit: Field<Option<int>>,
    kind: Field<Option<CatType>>,
    status: Field<Option<Status>>,
    gender: Field<Option<Gender>>,
    sort: Field<Option<string>>)
  {
    function Verdicts(): seq<Verdict> {
      [page.Verdict(), limit.Verdict(), kind.Verdict(), status.Verdict(), gender.Verdict(), sort.Verdict()]
    }

    predicate AllGood() {
      page.Good? && limit.Good? && kind.Good? && status.Good? && gender.Good? && sort.Good?
    }

    function Query(): CatListQuery
      requires AllGood()
    {
      CatListQuery(page.value, limit.value, kind.value, status.value, gender.value, sort.value)
    }
  }

  function CatListFieldsOf(prim: Primitives, f: map<string, Raw>): CatListFields {
    CatListFields(
      OptionalInt(prim, "page", f),
      OptionalInt(prim, "limit", f),
      Optional(Lookup(f, "type"), ZCatType(FieldPath("type"), Lookup(f, "type"))),
      Optional(Lookup(f, "status"), ZStatus(FieldPath("status"), Lookup(f, "status"))),
      Optional(Lookup(f, "gender"), ZGender(FieldPath("gender"), Lookup(f, "gender"))),
      Optional(Lookup(f, "sort"), ZSort(FieldPath("sort"), Lookup(f, "sort"), CatSortMessage)))
  }

  /** Field `key` is missing or holds the exact spelling of one of `names`. */
  predicate EnumAbsentOr(f: map<string, Raw>, key: string, names: seq<string>) {
    key !in f || (f[key].RString? && f[key].s in names)
  }

  /** Field `key` holds a string that spells none of `names`: the enum transform throws on it. */
  predicate EnumThrows(f: map<string, Raw>, key: string, names: seq<string>) {
    key in f && f[key].RString? && f[key].s !in names
  }

  /** Field `sort` is missing or holds a string matching the sort pattern. */
  predicate SortAbsentOr(f: map<string, Raw>) {
    "sort" !in f || (f["sort"].RString? && SortMatches(f["sort"].s))
  }

  /** What the listing schema accepts of a query object. */
  predicate CatListQueryValid(prim: Primitives, f: map<string, Raw>) {
    && IntAbsentOr(prim, f, "page")
    && IntAbsentOr(prim, f, "limit")
    && EnumAbsentOr(f, "type", CatTypeNames)
    && EnumAbsentOr(f, "status", StatusNames)
    && EnumAbsentOr(f, "gender", GenderNames)
    && SortAbsentOr(f)
  }

  /** An optional integer parameter parses exactly when it is missing or an integer `zInt` takes. */
  lemma OptionalIntGood(prim: Primitives, name: string, f: map<string, Raw>)
    ensures OptionalInt(prim, name, f).Good? <==> IntAbsentOr(prim, f, name)
    ensures OptionalInt(prim, name, f).Good? ==>
      OptionalInt(prim, name, f).value == if name in f then Some(IntOf(prim, f[name])) else None
  {
  }

  /** Each listing filter and the sort parse exactly when missing or well spelled, and keep what was given. */
  lemma CatListChoicesGood(prim: Primitives, f: map<string, Raw>)
    ensures var fs := CatListFieldsOf(prim, f);
      && (fs.kind.Good? <==> EnumAbsentOr(f, "type", CatTypeNames))
      && (fs.status.Good? <==> EnumAbsentOr(f, "status", StatusNames))
      && (fs.gender.Good? <==> EnumAbsentOr(f, "gender", GenderNames))
      && (fs.sort.Good? <==> SortAbsentOr(f))
      && (fs.kind.Good? ==> (fs.kind.value.Some? <==> "type" in f))
      && (fs.status.Good? ==> (fs.status.value.Some? <==> "status" in f))
      && (fs.gender.Good? ==> (fs.gender.value.Some? <==> "gender" in f))
      && (fs.sort.Good? ==> fs.sort.value == if "sort" in f then Some(f["sort"].s) else None)
  {
    var fs := CatListFieldsOf(prim, f);
    assert fs.kind.Good? <==> EnumAbsentOr(f, "type", CatTypeNames) by {
      assert ZCatType(FieldPath("type"), Lookup(f, "type")).Good? <==> ZEnum(CatTypeNames, FieldPath("type"), Lookup(f, "type")).Good?;
    }
    assert fs.status.Good? <==> EnumAbsentOr(f, "status", StatusNames) by {
      assert ZStatus(FieldPath("status"), Lookup(f, "status")).Good? <==> ZEnum(StatusNames, FieldPath("status"), Lookup(f, "status")).Good?;
    }
    assert fs.gender.Good? <==> EnumAbsentOr(f, "gender", GenderNames) by {
      assert ZGender(FieldPath("gender"), Lookup(f, "gender")).Good? <==> ZEnum(GenderNames, FieldPath("gender"), Lookup(f, "gender")).Good?;
    }
  }

  /** The listing schema is clean exactly when every parameter parses, which is when the query is valid. */
  lemma CatListClean(prim: Primitives, f: map<string, Raw>)
    ensures var fs := CatListFieldsOf(prim, f);
      && (Merge(fs.Verdicts()).Clean? <==> fs.AllGood())
      && (fs.AllGood() <==> CatListQueryValid(prim, f))
      && (fs.AllGood() && fs.sort.value.Some? ==> SortMatches(fs.sort.value.value))
  {
    var fs := CatListFieldsOf(prim, f);
    MergeClean(fs.Verdicts());
    OptionalIntGood(prim, "page", f);
    OptionalIntGood(prim, "limit", f);
    CatListChoicesGood(prim, f);
  }

  /** An optional integer parameter throws exactly when it is a string that is not a number. */
  lemma OptionalIntRaised(prim: Primitives, name: string, f: map<string, Raw>)
    ensures OptionalInt(prim, name, f).Verdict().Raised? <==> IntThrows(prim, f, name)
    ensures OptionalInt(prim, name, f).Verdict().Raised? ==> OptionalInt(prim, name, f).Verdict() == Raised("Expected integer")
  {
  }

  /** An optional enum parameter throws exactly when it is a string that spells none of `names`. */
  lemma OptionalEnumRaised<T>(f: map<string, Raw>, key: string, names: seq<string>, z: Field<T>)
    requires z.Verdict() == ZEnum(names, FieldPath(key), Lookup(f, key)).Verdict()
    ensures Optional(Lookup(f, key), z).Verdict().Raised? <==> EnumThrows(f, key, names)
  {
  }

  /**
   * The listing schema throws exactly when an integer parameter is not a
   * number or a filter is misspelled (the sort never throws); `page` and
   * `limit` come first, so when either of them throws the message is theirs.
   */
  lemma CatListRaised(prim: Primitives, f: map<string, Raw>)
    ensures var vs := CatListFieldsOf(prim, f).Verdicts();
      Merge(vs).Raised? <==>
        || IntThrows(prim, f, "page") || IntThrows(prim, f, "limit")
        || EnumThrows(f, "type", CatTypeNames) || EnumThrows(f, "status", StatusNames)
        || EnumThrows(f, "gender", GenderNames)
    ensures IntThrows(prim, f, "page") || IntThrows(prim, f, "limit") ==>
      Merge(CatListFieldsOf(prim, f).Verdicts()) == Raised("Expected integer")
  {
    var fs := CatListFieldsOf(prim, f);
    var vs := fs.Verdicts();
    OptionalIntRaised(prim, "page", f);
    OptionalIntRaised(prim, "limit", f);
    OptionalEnumRaised(f, "type", CatTypeNames, ZCatType(FieldPath("type"), Lookup(f, "type")));
    OptionalEnumRaised(f, "status", StatusNames, ZStatus(FieldPath("status"), Lookup(f, "status")));
    OptionalEnumRaised(f, "gender", GenderNames, ZGender(FieldPath("gender"), Lookup(f, "gender")));
    assert !vs[5].Raised?;
    MergeRaised(vs);
    assert Merge(vs) == Then(vs[0], Merge(vs[1..]));
    assert Merge(vs[1..]) == Then(vs[1], Merge(vs[1..][1..]));
  }

  /** `catListQuerySchema.safeParse(query)`. */
  function ParseCatListQuery(prim: Primitives, query: Raw): (r: Parse<CatListQuery>)
    ensures r.Parsed? <==> query.RObject? && CatListQueryValid(prim, query.fields)
    ensures r.Parsed? ==> r.value == CatListFieldsOf(prim, query.fields).Query()
    ensures r.Parsed? && r.value.sort.Some? ==> SortMatches(r.value.sort.value)
    ensures !query.RObject? ==> r == Failed([NotAnObject(query)])
    ensures r.Thrown? <==>
      && query.RObject?
      && (|| IntThrows(prim, query.fields, "page") || IntThrows(prim, query.fields, "limit")
          || EnumThrows(query.fields, "type", CatTypeNames) || EnumThrows(query.fields, "status", StatusNames)
          || EnumThrows(query.fields, "gender", GenderNames))
    ensures r.Thrown? && (IntThrows(prim, query.fields, "page") || IntThrows(prim, query.fields, "limit")) ==>
      r.message == "Expected integer"
  {
    match query
    case RObject(f) =>
      var fs := CatListFieldsOf(prim, f);
      CatListClean(prim, f);
      CatListRaised(prim, f);
      Conclude(Merge(fs.Verdicts()), if fs.AllGood() then Some(fs.Query()) else None)
    case _ => Failed([NotAnObject(query)])
  }

  /**
   * An accepted listing query carries exactly the parameters the query
   * string gave: the integers the coercer makes, the sort string as
   * written, and each filter as the enum value it spells.
   */
  lemma CatListQueryAccepted(prim: Primitives, f: map<string, Raw>)
    requires ParseCatListQuery(prim, RObject(f)).Parsed?
    ensures var q := ParseCatListQuery(prim, RObject(f)).value;
      && q.page == (if "page" in f then Some(IntOf(prim, f["page"])) else None)
      && q.limit == (if "limit" in f then Some(IntOf(prim, f["limit"])) else None)
      && q.sort == (if "sort" in f then Some(f["sort"].s) else None)
      && (q.kind.Some? <==> "type" in f) && (q.status.Some? <==> "status" in f) && (q.gender.Some? <==> "gender" in f)
      && (q.kind.Some? ==> f["type"] == RString(CatTypeName(q.kind.value)))
      && (q.status.Some? ==> f["status"] == RString(StatusName(q.status.value)))
      && (q.gender.Some? ==> f["gender"] == RString(GenderName(q.gender.value)))
  {
    var fs := CatListFieldsOf(prim, f);
    MergeClean(fs.Verdicts());
    OptionalIntGood(prim, "page", f);
    OptionalIntGood(prim, "limit", f);
    CatListChoicesGood(prim, f);
    assert fs.AllGood();
  }

  /** An empty query string is accepted, with every parameter absent. */
  lemma CatListQueryEmpty(prim: Primitives)
    ensures ParseCatListQuery(prim, RObject(map[])) == Parsed(CatListQuery(None, None, None, None, None, None))
  {
    var vs := [Clean, Clean, Clean, Clean, Clean, Clean];
    MergeClean(vs);
  }
}
