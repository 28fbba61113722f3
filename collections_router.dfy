/** The `collections.*` procedures over the `collections` table: submit,
    myRecords, filtered, summary and dashboardData. */
module CollectionsRouter {
  import opened Wrappers
  import opened Folds
  import opened Schema
  import opened Trpc

  /** Conversions done by the host: `Date.parse` / `new Date(...)` to a day
      number (None for an invalid date), `Number(...)` (None for NaN), and
      how MySQL compares a DECIMAL(10, 2) column with a text bound. That
      comparison is made at the bound's full precision, not on a bound
      rounded to hundredths: a value of `x` hundredths is `>=` the bound iff
      `x >= atLeast(bound)` (the ceiling of 100 times the bound's value) and
      `<=` it iff `x <= atMost(bound)` (the floor). */
  datatype Parsers = Parsers(
    date: string -> Option<int>,
    atLeast: string -> int,
    atMost: string -> int,
    number: string -> Option<int>)

  /** The `submit` input; numbers are in the units of their columns
      (volumes in hundredths, coordinates in 1e-8 degree). */
  datatype SubmissionInput = SubmissionInput(
    siteName: string,
    wasteType: string,
    collectionDate: string,
    totalVolume: int,
    wasteSeparated: bool,
    organicVolume: Option<int>,
    inorganicVolume: Option<int>,
    collectionCount: int,
    latitude: int,
    longitude: int,
    comments: Option<string>)

  datatype SubmitResponse = SubmitResponse(success: bool, message: string)

  const NotAvailable: ApiError := Thrown("Database not available")
  const SubmitForbidden: ApiError := Thrown("Only collectors can submit data")
  const ViewForbidden: ApiError := Thrown("Only collectors can view records")
  const VolumesExceedTotal: ApiError := Thrown("Separated volumes cannot exceed total volume")
  const SubmitFailed: ApiError := Thrown("Failed to submit collection")
  const FilterFailed: ApiError := Thrown("Failed to fetch filtered collections")
  const Submitted: SubmitResponse := SubmitResponse(true, "Collection submitted successfully")

  const MaxLatitude: int := 90 * CoordinateScale
  const MaxLongitude: int := 180 * CoordinateScale

  function ParseWasteType(s: string): (w: Option<WasteType>)
    ensures w.Some? <==> s in {"Organic", "Inorganic", "Mixed"}
  {
    if s == "Organic" then Some(Organic)
    else if s == "Inorganic" then Some(Inorganic)
    else if s == "Mixed" then Some(Mixed)
    else None
  }

  function EnumIssue(received: string): string
  {
    "Invalid enum value. Expected 'Organic' | 'Inorganic' | 'Mixed', received '" + received + "'"
  }

  function RangeIssues(v: int, bound: int, degrees: string): seq<string>
  {
    if v < -bound then ["Number must be greater than or equal to -" + degrees]
    else if v > bound then ["Number must be less than or equal to " + degrees]
    else []
  }

  /** `createCollectionSchema`: one message per failed check, in field order. */
  function SubmissionIssues(input: SubmissionInput, parsers: Parsers): (issues: seq<string>)
    ensures issues == [] <==>
      && input.siteName != ""
      && ParseWasteType(input.wasteType).Some?
      && parsers.date(input.collectionDate).Some?
      && input.totalVolume > 0
      && input.collectionCount >= 1
      && -MaxLatitude <= input.latitude <= MaxLatitude
      && -MaxLongitude <= input.longitude <= MaxLongitude
  {
    (if input.siteName != "" then [] else ["Site name is required"])
    + (if ParseWasteType(input.wasteType).Some? then [] else [EnumIssue(input.wasteType)])
    + (if parsers.date(input.collectionDate).Some? then [] else ["Invalid date"])
    + (if input.totalVolume > 0 then [] else ["Total volume must be greater than 0"])
    + (if input.collectionCount >= 1 then [] else ["Collection count must be at least 1"])
    + RangeIssues(input.latitude, MaxLatitude, "90")
    + RangeIssues(input.longitude, MaxLongitude, "180")
  }

  /** The role gate of `submit` and `myRecords`: only plain users are refused. */
  predicate CanWrite(role: Role)
    ensures CanWrite(role) <==> role != User
  {
    role == Collector || role == Admin
  }

  /** The separated-volume rule, missing parts counted as 0. */
  predicate SeparationOk(input: SubmissionInput)
  {
    input.wasteSeparated ==>
      input.organicVolume.GetOr(0) + input.inorganicVolume.GetOr(0) <= input.totalVolume
  }


  /** The values `submit` inserts, stamped with the caller's id. */
  function SubmittedValues(collectorId: int, input: SubmissionInput, parsers: Parsers): NewCollection
    requires SubmissionIssues(input, parsers) == []
  {
    NewCollection(collectorId, input.siteName, ParseWasteType(input.wasteType).value,
      parsers.date(input.collectionDate).value, input.totalVolume, Some(input.wasteSeparated),
      input.organicVolume, input.inorganicVolume, Some(input.collectionCount),
      Some(input.latitude), Some(input.longitude), input.comments)
  }

  /** What a record created through `submit` always satisfies. */
  predicate RecordInvariant(c: Collection)
  {
    && c.siteName != ""
    && c.totalVolume > 0
    && c.collectionCount >= 1
    && (c.wasteSeparated ==>
          c.organicVolume.GetOr(0) + c.inorganicVolume.GetOr(0) <= c.totalVolume)
    && c.latitude.Some? && -MaxLatitude <= c.latitude.value <= MaxLatitude
    && c.longitude.Some? && -MaxLongitude <= c.longitude.value <= MaxLongitude
  }

  /** Once the schema accepts a submission, the separated-volume check is
      exactly what keeps the stored row within the record invariant. */
  lemma SeparationRule(id: int, collectorId: int, input: SubmissionInput, parsers: Parsers)
    requires SubmissionIssues(input, parsers) == []
    ensures RecordInvariant(CollectionRow(id, SubmittedValues(collectorId, input, parsers))) <==> SeparationOk(input)
  {
    var c := CollectionRow(id, SubmittedValues(collectorId, input, parsers));
    assert c.wasteSeparated == input.wasteSeparated;
    assert c.organicVolume == input.organicVolume && c.inorganicVolume == input.inorganicVolume;
  }

  method Submit(db: Database?, user: Option<Account>, input: SubmissionInput, parsers: Parsers)
    returns (r: Result<SubmitResponse, ApiError>)
    requires db != null ==> db.Valid()
    modifies db
    ensures db != null ==> db.Valid()
    ensures user.None? ==> r == Err(SessionRequired) && (db != null ==> unchanged(db))
    ensures user.Some? && SubmissionIssues(input, parsers) != [] ==>
      r == Err(InputInvalid(SubmissionIssues(input, parsers))) && (db != null ==> unchanged(db))
    ensures user.Some? && SubmissionIssues(input, parsers) == [] ==>
      if !CanWrite(user.value.role) then
        r == Err(SubmitForbidden) && (db != null ==> unchanged(db))
      else if db == null then
        r == Err(NotAvailable)
      else if !SeparationOk(input) then
        r == Err(VolumesExceedTotal) && unchanged(db)
      else
        var row := CollectionRow(old(db.nextCollectionId), SubmittedValues(user.value.id, input, parsers));
        if !AcceptsCollection(old(db.users), old(db.collections), row) then
          r == Err(SubmitFailed) && unchanged(db)
        else
          && r == Ok(Submitted)
          && db.collections == old(db.collections) + [row]
          && row.collectorId == user.value.id
          && row.siteName == input.siteName && Some(row.wasteType) == ParseWasteType(input.wasteType)
          && Some(row.collectionDate) == parsers.date(input.collectionDate)
          && row.totalVolume == input.totalVolume && row.wasteSeparated == input.wasteSeparated
          && row.organicVolume == input.organicVolume && row.inorganicVolume == input.inorganicVolume
          && row.collectionCount == input.collectionCount
          && row.latitude == Some(input.latitude) && row.longitude == Some(input.longitude)
          && row.comments == input.comments
          && RecordInvariant(row)
          && db.nextCollectionId == old(db.nextCollectionId) + 1
          && db.users == old(db.users) && db.nextUserId == old(db.nextUserId)
  {
    if user.None? {
      return Err(SessionRequired);
    }
    var issues := SubmissionIssues(input, parsers);
    if issues != [] {
      return Err(InputInvalid(issues));
    }
    if !CanWrite(user.value.role) {
      return Err(SubmitForbidden);
    }
    if db == null {
      return Err(NotAvailable);
    }
    if input.wasteSeparated {
      var organic := input.organicVolume.GetOr(0);
      var inorganic := input.inorganicVolume.GetOr(0);
      if organic + inorganic > input.totalVolume {
        return Err(VolumesExceedTotal);
      }
    }
    var values := SubmittedValues(user.value.id, input, parsers);
    if !AcceptsCollection(db.users, db.collections, CollectionRow(db.nextCollectionId, values)) {
      return Err(SubmitFailed);
    }
    var row := db.InsertCollection(values);
    return Ok(Submitted);
  }

  /** `myRecords`: the caller's own records, behind the same role gate. */
  function MyRecords(db: Database?, user: Option<Account>): (r: Result<seq<Collection>, ApiError>)
    reads db
    ensures user.None? ==> r == Err(SessionRequired)
    ensures user.Some? && !CanWrite(user.value.role) ==> r == Err(ViewForbidden)
    ensures user.Some? && CanWrite(user.value.role) && db == null ==> r == Err(NotAvailable)
    ensures r.Ok? <==> user.Some? && CanWrite(user.value.role) && db != null
    ensures r.Ok? ==>
      && (forall i :: 0 <= i < |r.value| ==>
            r.value[i] in db.collections && r.value[i].collectorId == user.value.id)
      && (forall i :: 0 <= i < |db.collections| && db.collections[i].collectorId == user.value.id ==>
            db.collections[i] in r.value)
  {
    if user.None? then Err(SessionRequired)
    else if !CanWrite(user.value.role) then Err(ViewForbidden)
    else if db == null then Err(NotAvailable)
    else Ok(Filter(db.collections, (c: Collection) => c.collectorId == user.value.id))
  }

  // ----- filtered -----

  /** `filterSchema`: every criterion is optional; bounds are text. */
  datatype FilterInput = FilterInput(
    siteName: Option<string>,
    wasteType: Option<string>,
    startDate: Option<string>,
    endDate: Option<string>,
    minVolume: Option<string>,
    maxVolume: Option<string>,
    wasteSeparated: Option<bool>,
    minCollections: Option<string>,
    minOrganicVolume: Option<string>)

  /** `if (input.x)`: absent and empty strings impose nothing. */
  predicate Truthy(s: Option<string>)
  {
    s.Some? && s.value != ""
  }

  /** The only check `filterSchema` can fail: an unknown waste type. */
  function FilterIssues(f: FilterInput): (issues: seq<string>)
    ensures issues == [] <==> f.wasteType.None? || ParseWasteType(f.wasteType.value).Some?
  {
    if f.wasteType.Some? && ParseWasteType(f.wasteType.value).None? then [EnumIssue(f.wasteType.value)]
    else []
  }

  /** A date bound that is given but does not parse. */
  predicate BadDate(s: Option<string>, parsers: Parsers)
  {
    Truthy(s) && parsers.date(s.value).None?
  }

  /** A count bound that is given but is not a number: `Number(...)` is NaN. */
  predicate BadNumber(s: Option<string>, parsers: Parsers)
  {
    Truthy(s) && parsers.number(s.value).None?
  }

  predicate IsPrefix(p: string, s: string)
  {
    |p| <= |s| && s[..|p|] == p
  }

  /** `siteName LIKE '%fragment%'`, read as plain substring containment. */
  predicate Contains(s: string, fragment: string)
    decreases |s|
  {
    IsPrefix(fragment, s) || (s != [] && Contains(s[1..], fragment))
  }

  /** One SQL condition of the WHERE clause `filtered` builds. */
  datatype Condition =
    | SiteLike(fragment: string)
    | TypeIs(wasteType: WasteType)
    | DateFrom(day: Option<int>)
    | DateUntil(day: Option<int>)
    | VolumeFrom(hundredths: int)
    | VolumeUntil(hundredths: int)
    | SeparatedIs(flag: bool)
    | CountFrom(count: int)
    | OrganicFrom(hundredths: int)

  /** Whether the condition is true of a row. A comparison with NULL is
      unknown, which excludes the row: a NULL organic volume, and an invalid
      Date bound, which the driver sends as NULL. */
  predicate Holds(cond: Condition, c: Collection)
  {
    match cond
    case SiteLike(f) => Contains(c.siteName, f)
    case TypeIs(w) => c.wasteType == w
    case DateFrom(d) => d.Some? && c.collectionDate >= d.value
    case DateUntil(d) => d.Some? && c.collectionDate <= d.value
    case VolumeFrom(v) => c.totalVolume >= v
    case VolumeUntil(v) => c.totalVolume <= v
    case SeparatedIs(b) => c.wasteSeparated == b
    case CountFrom(n) => c.collectionCount >= n
    case OrganicFrom(v) => c.organicVolume.Some? && c.organicVolume.value >= v
  }

  /** `and(...conditions)`; no conditions select every row. */
  predicate AllHold(conds: seq<Condition>, c: Collection)
  {
    forall i :: 0 <= i < |conds| ==> Holds(conds[i], c)
  }

  /** The criteria `filterSchema` accepts. */
  datatype Criterion =
    | SiteCriterion | TypeCriterion | StartCriterion | EndCriterion
    | MinVolumeCriterion | MaxVolumeCriterion | SeparatedCriterion
    | MinCountCriterion | MinOrganicCriterion

  /** What one criterion demands of a row: nothing when it is not given,
      otherwise a constraint on one column. */
  predicate Demands(f: FilterInput, parsers: Parsers, k: Criterion, c: Collection)
  {
    match k
    case SiteCriterion => Truthy(f.siteName) ==> Contains(c.siteName, f.siteName.value)
    case TypeCriterion => f.wasteType.Some? ==> Some(c.wasteType) == ParseWasteType(f.wasteType.value)
    case StartCriterion => Truthy(f.startDate) ==>
      parsers.date(f.startDate.value).Some? && c.collectionDate >= parsers.date(f.startDate.value).value
    case EndCriterion => Truthy(f.endDate) ==>
      parsers.date(f.endDate.value).Some? && c.collectionDate <= parsers.date(f.endDate.value).value
    case MinVolumeCriterion => Truthy(f.minVolume) ==> c.totalVolume >= parsers.atLeast(f.minVolume.value)
    case MaxVolumeCriterion => Truthy(f.maxVolume) ==> c.totalVolume <= parsers.atMost(f.maxVolume.value)
    case SeparatedCriterion => f.wasteSeparated.Some? ==> c.wasteSeparated == f.wasteSeparated.value
    case MinCountCriterion => Truthy(f.minCollections) ==>
      parsers.number(f.minCollections.value).Some? && c.collectionCount >= parsers.number(f.minCollections.value).value
    case MinOrganicCriterion => Truthy(f.minOrganicVolume) ==>
      c.organicVolume.Some? && c.organicVolume.value >= parsers.atLeast(f.minOrganicVolume.value)
  }

  /** A row matches when it meets every criterion. */
  predicate Matches(f: FilterInput, parsers: Parsers, c: Collection)
  {
    forall k: Criterion :: Demands(f, parsers, k, c)
  }

  /** The rows `filtered` returns, in table order. */
  function Keep(rs: seq<Collection>, f: FilterInput, parsers: Parsers): (r: seq<Collection>)
    ensures |r| <= |rs|
    ensures forall i :: 0 <= i < |r| ==> r[i] in rs && Matches(f, parsers, r[i])
    ensures forall i :: 0 <= i < |rs| && Matches(f, parsers, rs[i]) ==> rs[i] in r
  {
    Filter(rs, (c: Collection) => Matches(f, parsers, c))
  }

  lemma AllHoldConcat(a: seq<Condition>, b: seq<Condition>, c: Collection)
    ensures AllHold(a + b, c) <==> AllHold(a, c) && AllHold(b, c)
  {
    if AllHold(a + b, c) {
      forall i | 0 <= i < |a| ensures Holds(a[i], c) {
        assert (a + b)[i] == a[i];
      }
      forall i | 0 <= i < |b| ensures Holds(b[i], c) {
        assert (a + b)[|a| + i] == b[i];
      }
    }
  }

  /** The condition `filtered` pushes for one criterion, if it is given. */
  function ConditionFor(f: FilterInput, parsers: Parsers, k: Criterion): seq<Condition>
    requires FilterIssues(f) == []
  {
    match k
    case SiteCriterion => if Truthy(f.siteName) then [SiteLike(f.siteName.value)] else []
    case TypeCriterion => if f.wasteType.Some? then [TypeIs(ParseWasteType(f.wasteType.value).value)] else []
    case StartCriterion => if Truthy(f.startDate) then [DateFrom(parsers.date(f.startDate.value))] else []
    case EndCriterion => if Truthy(f.endDate) then [DateUntil(parsers.date(f.endDate.value))] else []
    case MinVolumeCriterion => if Truthy(f.minVolume) then [VolumeFrom(parsers.atLeast(f.minVolume.value))] else []
    case MaxVolumeCriterion => if Truthy(f.maxVolume) then [VolumeUntil(parsers.atMost(f.maxVolume.value))] else []
    case SeparatedCriterion => if f.wasteSeparated.Some? then [SeparatedIs(f.wasteSeparated.value)] else []
    case MinCountCriterion =>
      if Truthy(f.minCollections) && parsers.number(f.minCollections.value).Some?
      then [CountFrom(parsers.number(f.minCollections.value).value)] else []
    case MinOrganicCriterion =>
      if Truthy(f.minOrganicVolume) then [OrganicFrom(parsers.atLeast(f.minOrganicVolume.value))] else []
  }

  /** Each pushed condition says exactly what its criterion demands. */
  lemma ConditionForMeaning(f: FilterInput, parsers: Parsers, k: Criterion, c: Collection)
    requires FilterIssues(f) == []
    requires !BadNumber(f.minCollections, parsers)
    ensures AllHold(ConditionFor(f, parsers, k), c) <==> Demands(f, parsers, k, c)
  {
    var s := ConditionFor(f, parsers, k);
    if s != [] {
      assert s == [s[0]];
    }
  }

  /** The conditions `filtered` pushes, in order. */
  function Conditions(f: FilterInput, parsers: Parsers): seq<Condition>
    requires FilterIssues(f) == []
  {
    []
    + ConditionFor(f, parsers, SiteCriterion)
    + ConditionFor(f, parsers, TypeCriterion)
    + ConditionFor(f, parsers, StartCriterion)
    + ConditionFor(f, parsers, EndCriterion)
    + ConditionFor(f, parsers, MinVolumeCriterion)
    + ConditionFor(f, parsers, MaxVolumeCriterion)
    + ConditionFor(f, parsers, SeparatedCriterion)
    + ConditionFor(f, parsers, MinCountCriterion)
    + ConditionFor(f, parsers, MinOrganicCriterion)
  }

  /** The WHERE clause selects exactly the rows the criteria describe. */
  lemma ConditionsMeanCriteria(f: FilterInput, parsers: Parsers, c: Collection)
    requires FilterIssues(f) == []
    requires !BadNumber(f.minCollections, parsers)
    ensures AllHold(Conditions(f, parsers), c) <==> Matches(f, parsers, c)
  {
    var s1 := ConditionFor(f, parsers, SiteCriterion);
    var s2 := ConditionFor(f, parsers, TypeCriterion);
    var s3 := ConditionFor(f, parsers, StartCriterion);
    var s4 := ConditionFor(f, parsers, EndCriterion);
    var s5 := ConditionFor(f, parsers, MinVolumeCriterion);
    var s6 := ConditionFor(f, parsers, MaxVolumeCriterion);
    var s7 := ConditionFor(f, parsers, SeparatedCriterion);
    var s8 := ConditionFor(f, parsers, MinCountCriterion);
    var s9 := ConditionFor(f, parsers, MinOrganicCriterion);
    AllHoldConcat([], s1, c);
    AllHoldConcat([] + s1, s2, c);
    AllHoldConcat([] + s1 + s2, s3, c);
    AllHoldConcat([] + s1 + s2 + s3, s4, c);
    AllHoldConcat([] + s1 + s2 + s3 + s4, s5, c);
    AllHoldConcat([] + s1 + s2 + s3 + s4 + s5, s6, c);
    AllHoldConcat([] + s1 + s2 + s3 + s4 + s5 + s6, s7, c);
    AllHoldConcat([] + s1 + s2 + s3 + s4 + s5 + s6 + s7, s8, c);
    AllHoldConcat([] + s1 + s2 + s3 + s4 + s5 + s6 + s7 + s8, s9, c);
    forall k: Criterion ensures AllHold(ConditionFor(f, parsers, k), c) <==> Demands(f, parsers, k, c) {
      ConditionForMeaning(f, parsers, k, c);
    }
  }

  /** The statements of `filtered` that push one condition per given
      criterion, up to the date bounds; an invalid Date is pushed as is. */
  method PushTextConditions(input: FilterInput, parsers: Parsers)
    returns (conditions: seq<Condition>)
    requires FilterIssues(input) == []
    ensures conditions == [] + ConditionFor(input, parsers, SiteCriterion)
      + ConditionFor(input, parsers, TypeCriterion) + ConditionFor(input, parsers, StartCriterion)
      + ConditionFor(input, parsers, EndCriterion)
  {
    conditions := [];
    ghost var pushed := conditions;
    if Truthy(input.siteName) {
      conditions := conditions + [SiteLike(input.siteName.value)];
    }
    assert conditions == pushed + ConditionFor(input, parsers, SiteCriterion);
    pushed := conditions;
    if input.wasteType.Some? {
      conditions := conditions + [TypeIs(ParseWasteType(input.wasteType.value).value)];
    }
    assert conditions == pushed + ConditionFor(input, parsers, TypeCriterion);
    pushed := conditions;
    if Truthy(input.startDate) {
      conditions := conditions + [DateFrom(parsers.date(input.startDate.value))];
    }
    assert conditions == pushed + ConditionFor(input, parsers, StartCriterion);
    pushed := conditions;
    if Truthy(input.endDate) {
      conditions := conditions + [DateUntil(parsers.date(input.endDate.value))];
    }
    assert conditions == pushed + ConditionFor(input, parsers, EndCriterion);
  }

  /** The remaining statements of `filtered`, for the numeric bounds and the
      separation flag, appending to `before`; `malformed` records a count
      bound that is NaN. */
  method PushNumericConditions(input: FilterInput, parsers: Parsers, before: seq<Condition>)
    returns (conditions: seq<Condition>, malformed: bool)
    requires FilterIssues(input) == []
    ensures conditions == before + ConditionFor(input, parsers, MinVolumeCriterion)
      + ConditionFor(input, parsers, MaxVolumeCriterion) + ConditionFor(input, parsers, SeparatedCriterion)
      + ConditionFor(input, parsers, MinCountCriterion) + ConditionFor(input, parsers, MinOrganicCriterion)
    ensures malformed <==> BadNumber(input.minCollections, parsers)
  {
    conditions := before;
    malformed := false;
    ghost var pushed := conditions;
    if Truthy(input.minVolume) {
      conditions := conditions + [VolumeFrom(parsers.atLeast(input.minVolume.value))];
    }
    assert conditions == pushed + ConditionFor(input, parsers, MinVolumeCriterion);
    pushed := conditions;
    if Truthy(input.maxVolume) {
      conditions := conditions + [VolumeUntil(parsers.atMost(input.maxVolume.value))];
    }
    assert conditions == pushed + ConditionFor(input, parsers, MaxVolumeCriterion);
    pushed := conditions;
    if input.wasteSeparated.Some? {
      conditions := conditions + [SeparatedIs(input.wasteSeparated.value)];
    }
    assert conditions == pushed + ConditionFor(input, parsers, SeparatedCriterion);
    pushed := conditions;
    if Truthy(input.minCollections) {
      var count := parsers.number(input.minCollections.value);
      if count.None? { malformed := true; } else { conditions := conditions + [CountFrom(count.value)]; }
    }
    assert conditions == pushed + ConditionFor(input, parsers, MinCountCriterion);
    pushed := conditions;
    if Truthy(input.minOrganicVolume) {
      conditions := conditions + [OrganicFrom(parsers.atLeast(input.minOrganicVolume.value))];
    }
    assert conditions == pushed + ConditionFor(input, parsers, MinOrganicCriterion);
  }

  method Filtered(db: Database?, input: FilterInput, parsers: Parsers)
    returns (r: Result<seq<Collection>, ApiError>)
    ensures FilterIssues(input) != [] ==> r == Err(InputInvalid(FilterIssues(input)))
    ensures FilterIssues(input) == [] && db == null ==> r == Err(NotAvailable)
    ensures FilterIssues(input) == [] && db != null ==>
      if BadNumber(input.minCollections, parsers) then r == Err(FilterFailed)
      else r == Ok(Keep(db.collections, input, parsers))
  {
    var issues := FilterIssues(input);
    if issues != [] {
      return Err(InputInvalid(issues));
    }
    if db == null {
      return Err(NotAvailable);
    }
    var conditions := PushTextConditions(input, parsers);
    var malformed;
    conditions, malformed := PushNumericConditions(input, parsers, conditions);
    if malformed {
      // NaN reaches the SQL text as a bare word: MySQL refuses the query,
      // which fails inside the try block.
      return Err(FilterFailed);
    }
    var rows := Filter(db.collections, (c: Collection) => AllHold(conditions, c));
    forall i | 0 <= i < |db.collections|
      ensures AllHold(conditions, db.collections[i]) <==> Matches(input, parsers, db.collections[i])
    {
      ConditionsMeanCriteria(input, parsers, db.collections[i]);
    }
    FilterAgree(db.collections, (c: Collection) => AllHold(conditions, c),
                (c: Collection) => Matches(input, parsers, c));
    return Ok(rows);
  }

  /** With no criterion given, `filtered` returns the whole table. */
  predicate Blank(f: FilterInput)
  {
    && !Truthy(f.siteName) && f.wasteType.None? && !Truthy(f.startDate) && !Truthy(f.endDate)
    && !Truthy(f.minVolume) && !Truthy(f.maxVolume) && f.wasteSeparated.None?
    && !Truthy(f.minCollections) && !Truthy(f.minOrganicVolume)
  }

  lemma BlankKeepsAll(rs: seq<Collection>, f: FilterInput, parsers: Parsers)
    requires Blank(f)
    ensures Keep(rs, f, parsers) == rs
  {
    forall i | 0 <= i < |rs| ensures Matches(f, parsers, rs[i]) {
      forall k: Criterion ensures Demands(f, parsers, k, rs[i]) {
      }
    }
    FilterKeepsAll(rs, (c: Collection) => Matches(f, parsers, c));
  }

  /** `b` gives every criterion `a` gives, with the same value. */
  predicate Narrower(b: FilterInput, a: FilterInput)
  {
    && (Truthy(a.siteName) ==> b.siteName == a.siteName)
    && (a.wasteType.Some? ==> b.wasteType == a.wasteType)
    && (Truthy(a.startDate) ==> b.startDate == a.startDate)
    && (Truthy(a.endDate) ==> b.endDate == a.endDate)
    && (Truthy(a.minVolume) ==> b.minVolume == a.minVolume)
    && (Truthy(a.maxVolume) ==> b.maxVolume == a.maxVolume)
    && (a.wasteSeparated.Some? ==> b.wasteSeparated == a.wasteSeparated)
    && (Truthy(a.minCollections) ==> b.minCollections == a.minCollections)
    && (Truthy(a.minOrganicVolume) ==> b.minOrganicVolume == a.minOrganicVolume)
  }

  /** Adding criteria only removes rows: every row of the narrower query's
      result is in the wider one's, and there are no more of them. */
  lemma NarrowingShrinks(rs: seq<Collection>, b: FilterInput, a: FilterInput, parsers: Parsers)
    requires Narrower(b, a)
    ensures |Keep(rs, b, parsers)| <= |Keep(rs, a, parsers)|
    ensures forall i :: 0 <= i < |Keep(rs, b, parsers)| ==> Keep(rs, b, parsers)[i] in Keep(rs, a, parsers)
  {
    forall c: Collection | Matches(b, parsers, c) ensures Matches(a, parsers, c) {
      forall k: Criterion ensures Demands(a, parsers, k, c) {
        assert Demands(b, parsers, k, c);
      }
    }
    FilterMonotone(rs, (c: Collection) => Matches(b, parsers, c), (c: Collection) => Matches(a, parsers, c));
    var kb := Keep(rs, b, parsers);
    forall i | 0 <= i < |kb| ensures kb[i] in Keep(rs, a, parsers) {
      var j :| 0 <= j < |rs| && rs[j] == kb[i];
      assert Matches(a, parsers, rs[j]);
    }
  }

  /** A range whose two ends are the same text keeps exactly the records
      whose volume lies between that text's two readings: its own volume when
      the text is a whole number of hundredths. */
  lemma ExactVolumeFinds(rs: seq<Collection>, j: int, f: FilterInput, parsers: Parsers)
    requires 0 <= j < |rs|
    requires f == FilterInput(None, None, None, None, f.minVolume, f.maxVolume, None, None, None)
    requires f.minVolume == f.maxVolume && Truthy(f.minVolume)
    ensures parsers.atLeast(f.minVolume.value) <= rs[j].totalVolume <= parsers.atMost(f.minVolume.value) ==>
      rs[j] in Keep(rs, f, parsers)
    ensures forall i :: 0 <= i < |Keep(rs, f, parsers)| ==>
      parsers.atLeast(f.minVolume.value) <= Keep(rs, f, parsers)[i].totalVolume <= parsers.atMost(f.minVolume.value)
  {
    var v := f.minVolume.value;
    if parsers.atLeast(v) <= rs[j].totalVolume <= parsers.atMost(v) {
      forall k: Criterion ensures Demands(f, parsers, k, rs[j]) {
      }
    }
    var r := Keep(rs, f, parsers);
    forall i | 0 <= i < |r| ensures parsers.atLeast(v) <= r[i].totalVolume <= parsers.atMost(v) {
      assert Demands(f, parsers, MinVolumeCriterion, r[i]) && Demands(f, parsers, MaxVolumeCriterion, r[i]);
    }
  }

  /** A bound finer than a hundredth, used as both ends ("12.501"), has a
      ceiling above its floor, so no stored volume lies in the range. */
  lemma FinerBoundFindsNothing(rs: seq<Collection>, f: FilterInput, parsers: Parsers)
    requires f.minVolume == f.maxVolume && Truthy(f.minVolume)
    requires parsers.atMost(f.minVolume.value) < parsers.atLeast(f.minVolume.value)
    ensures Keep(rs, f, parsers) == []
  {
    forall c: Collection ensures !Matches(f, parsers, c) {
      assert !Demands(f, parsers, MinVolumeCriterion, c) || !Demands(f, parsers, MaxVolumeCriterion, c);
    }
    FilterNone(rs, (c: Collection) => Matches(f, parsers, c));
  }

  /** A date bound that is not a valid Date compares with NULL, so the query
      returns no rows at all. */
  lemma BadDateFindsNothing(rs: seq<Collection>, f: FilterInput, parsers: Parsers)
    requires BadDate(f.startDate, parsers) || BadDate(f.endDate, parsers)
    ensures Keep(rs, f, parsers) == []
  {
    forall c: Collection ensures !Matches(f, parsers, c) {
      assert !Demands(f, parsers, StartCriterion, c) || !Demands(f, parsers, EndCriterion, c);
    }
    FilterNone(rs, (c: Collection) => Matches(f, parsers, c));
  }

  /** `wasteSeparated: false` is a criterion, not an absent one. */
  lemma SeparatedFalseExcludesSeparated(rs: seq<Collection>, f: FilterInput, parsers: Parsers)
    requires f.wasteSeparated == Some(false)
    ensures forall i :: 0 <= i < |Keep(rs, f, parsers)| ==> !Keep(rs, f, parsers)[i].wasteSeparated
  {
    var r := Keep(rs, f, parsers);
    forall i | 0 <= i < |r| ensures !r[i].wasteSeparated {
      assert Demands(f, parsers, SeparatedCriterion, r[i]);
    }
  }

  // ----- summary and dashboardData -----

  function SiteOf(c: Collection): string { c.siteName }
  function DateOf(c: Collection): int { c.collectionDate }
  function VolumeOf(c: Collection): int { c.totalVolume }
  function TypeOf(c: Collection): WasteType { c.wasteType }
  function One(c: Collection): int { 1 }

  /** How many records have the waste type. */
  function CountOfType(rs: seq<Collection>, w: WasteType): nat
  {
    Count(rs, TypeOf, w)
  }

  /** How many records were taken at the site. */
  function CountAtSite(rs: seq<Collection>, site: string): nat
  {
    Count(rs, SiteOf, site)
  }

  /** Every record has exactly one of the three waste types. */
  lemma {:induction false} TypeCountsPartition(rs: seq<Collection>)
    ensures CountOfType(rs, Organic) + CountOfType(rs, Inorganic) + CountOfType(rs, Mixed) == |rs|
  {
    if rs != [] {
      var n := |rs| - 1;
      TypeCountsPartition(rs[..n]);
      CountLast(rs, TypeOf, Organic);
      CountLast(rs, TypeOf, Inorganic);
      CountLast(rs, TypeOf, Mixed);
      assert TypeOf(rs[n]) == rs[n].wasteType;
    }
  }

  /** The per-site buckets: one per site that occurs, holding its number of
      records, and together counting every record once. */
  lemma SiteCounts(rs: seq<Collection>)
    ensures forall site :: site in GroupSum(rs, SiteOf, One) <==> exists i :: 0 <= i < |rs| && rs[i].siteName == site
    ensures forall site :: site in GroupSum(rs, SiteOf, One) ==> GroupSum(rs, SiteOf, One)[site] == CountAtSite(rs, site)
    ensures MapSum(GroupSum(rs, SiteOf, One)) == |rs|
  {
    GroupSumTotal(rs, SiteOf, One);
    SumOfOnes(rs, One);
    forall site {
      SiteCountAt(rs, site);
    }
  }

  lemma SiteCountAt(rs: seq<Collection>, site: string)
    ensures site in GroupSum(rs, SiteOf, One) <==> exists i :: 0 <= i < |rs| && rs[i].siteName == site
    ensures site in GroupSum(rs, SiteOf, One) ==> GroupSum(rs, SiteOf, One)[site] == CountAtSite(rs, site)
  {
    GroupSumAt(rs, SiteOf, One, site);
    KeyedSumCounts(rs, SiteOf, One, site);
  }

  datatype TypeCounts = TypeCounts(organic: nat, inorganic: nat, mixed: nat)

  datatype SummaryData = SummaryData(
    totalRecords: nat,
    totalVolume: int,
    byWasteType: TypeCounts,
    bySite: map<string, int>)

  /** `summary`: totals over the whole table, counts per waste type, and the
      number of records per site built by walking the rows. */
  method Summary(db: Database?) returns (r: Result<SummaryData, ApiError>)
    ensures db == null ==> r == Err(NotAvailable)
    ensures db != null ==> r.Ok?
    ensures db != null ==>
      var s := r.value;
      var rs := db.collections;
      && s.totalRecords == |rs|
      && s.totalVolume == Sum(rs, VolumeOf)
      && s.byWasteType == TypeCounts(CountOfType(rs, Organic), CountOfType(rs, Inorganic), CountOfType(rs, Mixed))
      && s.byWasteType.organic + s.byWasteType.inorganic + s.byWasteType.mixed == s.totalRecords
      && (forall site :: site in s.bySite <==> exists i :: 0 <= i < |rs| && rs[i].siteName == site)
      && (forall site :: site in s.bySite ==> s.bySite[site] == CountAtSite(rs, site))
      && MapSum(s.bySite) == s.totalRecords
  {
    if db == null {
      return Err(NotAvailable);
    }
    var rs := db.collections;
    var bySite: map<string, int> := map[];
    var i := 0;
    while i < |rs|
      invariant 0 <= i <= |rs|
      invariant bySite == GroupSum(rs[..i], SiteOf, One)
    {
      assert rs[..i + 1][..i] == rs[..i];
      var site := rs[i].siteName;
      bySite := bySite[site := (if site in bySite then bySite[site] else 0) + 1];
      i := i + 1;
    }
    assert rs[..i] == rs;
    TypeCountsPartition(rs);
    SiteCounts(rs);
    var counts := TypeCounts(CountOfType(rs, Organic), CountOfType(rs, Inorganic), CountOfType(rs, Mixed));
    return Ok(SummaryData(|rs|, Sum(rs, VolumeOf), counts, bySite));
  }

  /** A map marker: one located record. */
  datatype Marker = Marker(id: int, lat: int, lng: int, siteName: string, wasteType: WasteType, volume: int, date: int)

  /** `r.latitude && r.longitude`: a stored decimal is a non-empty string, so
      only NULL coordinates fail. */
  predicate Located(c: Collection)
  {
    c.latitude.Some? && c.longitude.Some?
  }

  function ToMarker(c: Collection): (m: Marker)
    requires Located(c)
  {
    Marker(c.id, c.latitude.value, c.longitude.value, c.siteName, c.wasteType, c.totalVolume, c.collectionDate)
  }

  /** The markers: the located records, in table order, as markers. */
  function Markers(rs: seq<Collection>): (ms: seq<Marker>)
    ensures |ms| <= |rs|
    ensures |ms| == |Filter(rs, Located)|
    ensures forall i :: 0 <= i < |ms| ==> ms[i] == ToMarker(Filter(rs, Located)[i])
    ensures forall i :: 0 <= i < |ms| ==> exists j :: 0 <= j < |rs| && Located(rs[j]) && ms[i] == ToMarker(rs[j])
    ensures forall j :: 0 <= j < |rs| && Located(rs[j]) ==> ToMarker(rs[j]) in ms
  {
    var located := Filter(rs, Located);
    var ms := seq(|located|, i requires 0 <= i < |located| => ToMarker(located[i]));
    assert forall i :: 0 <= i < |ms| ==> located[i] in rs && ms[i] == ToMarker(located[i]);
    assert forall j :: 0 <= j < |rs| && Located(rs[j]) ==> rs[j] in located;
    ms
  }

  datatype DashboardSummary = DashboardSummary(totalRecords: nat, totalVolume: int)

  datatype DashboardPayload = DashboardPayload(
    trendData: map<int, int>,
    markers: seq<Marker>,
    summary: DashboardSummary)

  /** `dashboardData`: total volume per collection day, the map markers and
      the headline totals. */
  method DashboardData(db: Database?) returns (r: Result<DashboardPayload, ApiError>)
    ensures db == null ==> r == Err(NotAvailable)
    ensures db != null ==> r.Ok?
    ensures db != null ==>
      var d := r.value;
      var rs := db.collections;
      && d.summary == DashboardSummary(|rs|, Sum(rs, VolumeOf))
      && (forall day :: day in d.trendData <==> exists i :: 0 <= i < |rs| && rs[i].collectionDate == day)
      && (forall day :: day in d.trendData ==> d.trendData[day] == KeyedSum(rs, DateOf, VolumeOf, day))
      && MapSum(d.trendData) == d.summary.totalVolume
      && d.markers == Markers(rs)
      && |d.markers| <= d.summary.totalRecords
  {
    if db == null {
      return Err(NotAvailable);
    }
    var rs := db.collections;
    var trend: map<int, int> := map[];
    var i := 0;
    while i < |rs|
      invariant 0 <= i <= |rs|
      invariant trend == GroupSum(rs[..i], DateOf, VolumeOf)
    {
      assert rs[..i + 1][..i] == rs[..i];
      var day := rs[i].collectionDate;
      trend := trend[day := (if day in trend then trend[day] else 0) + rs[i].totalVolume];
      i := i + 1;
    }
    assert rs[..i] == rs;
    GroupSumTotal(rs, DateOf, VolumeOf);
    forall day ensures (day in trend <==> exists i :: 0 <= i < |rs| && rs[i].collectionDate == day)
      && (day in trend ==> trend[day] == KeyedSum(rs, DateOf, VolumeOf, day))
    {
      GroupSumAt(rs, DateOf, VolumeOf, day);
    }
    var markers := Markers(rs);
    return Ok(DashboardPayload(trend, markers, DashboardSummary(|rs|, Sum(rs, VolumeOf))));
  }
}
