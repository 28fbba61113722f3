/** The dashboard page: the summary and trend recomputed in the browser from
    the `filtered` result, the map markers it receives from
    `dashboardData`, and the handlers that move the filter state. */
module Dashboard {
  import opened Wrappers
  import opened Folds
  import opened Schema
  import opened CollectionsRouter
  import opened Trpc

  // ----- aggregates over the filtered list -----

  datatype ClientSummary = ClientSummary(totalRecords: nat, totalVolume: int, byWasteType: map<WasteType, int>)

  /** `byWasteType?.Organic || 0`: the count shown on the card. */
  function Shown(s: ClientSummary, w: WasteType): int
  {
    if w in s.byWasteType then s.byWasteType[w] else 0
  }

  /** Per-type buckets: one per type that occurs, holding its count. */
  lemma TypeBucketAt(rs: seq<Collection>, w: WasteType)
    ensures w in GroupSum(rs, TypeOf, One) <==> exists i :: 0 <= i < |rs| && rs[i].wasteType == w
    ensures w in GroupSum(rs, TypeOf, One) ==> GroupSum(rs, TypeOf, One)[w] == CountOfType(rs, w)
  {
    GroupSumAt(rs, TypeOf, One, w);
    KeyedSumCounts(rs, TypeOf, One, w);
  }

  /** `filteredSummary`; `None` is the list before the query has answered. */
  method FilteredSummary(collections: Option<seq<Collection>>) returns (s: ClientSummary)
    ensures collections.None? ==> s == ClientSummary(0, 0, map[])
    ensures collections.Some? ==>
      var rs := collections.value;
      && s.totalRecords == |rs|
      && s.totalVolume == Sum(rs, VolumeOf)
      && (forall w :: w in s.byWasteType <==> exists i :: 0 <= i < |rs| && rs[i].wasteType == w)
      && (forall w :: Shown(s, w) == CountOfType(rs, w))
      && Shown(s, Organic) + Shown(s, Inorganic) + Shown(s, Mixed) == s.totalRecords
      && MapSum(s.byWasteType) == s.totalRecords
  {
    if collections.None? {
      return ClientSummary(0, 0, map[]);
    }
    var rs := collections.value;
    var acc: map<WasteType, int> := map[];
    var i := 0;
    while i < |rs|
      invariant 0 <= i <= |rs|
      invariant acc == GroupSum(rs[..i], TypeOf, One)
    {
      assert rs[..i + 1][..i] == rs[..i];
      var w := rs[i].wasteType;
      acc := acc[w := (if w in acc then acc[w] else 0) + 1];
      i := i + 1;
    }
    assert rs[..i] == rs;
    s := ClientSummary(|rs|, Sum(rs, VolumeOf), acc);
    forall w ensures (w in acc <==> exists i :: 0 <= i < |rs| && rs[i].wasteType == w)
      && Shown(s, w) == CountOfType(rs, w)
    {
      TypeBucketAt(rs, w);
      if w !in acc {
        KeyedSumAbsent(rs, TypeOf, One, w);
        KeyedSumCounts(rs, TypeOf, One, w);
      }
    }
    TypeCountsPartition(rs);
    GroupSumTotal(rs, TypeOf, One);
    SumOfOnes(rs, One);
  }

  /** `filteredTrendData`: total volume per collection day of the filtered list. */
  method FilteredTrendData(collections: Option<seq<Collection>>) returns (trend: map<int, int>)
    ensures collections.None? ==> trend == map[]
    ensures collections.Some? ==>
      var rs := collections.value;
      && (forall day :: day in trend <==> exists i :: 0 <= i < |rs| && rs[i].collectionDate == day)
      && (forall day :: day in trend ==> trend[day] == KeyedSum(rs, DateOf, VolumeOf, day))
      && MapSum(trend) == Sum(rs, VolumeOf)
  {
    if collections.None? {
      return map[];
    }
    var rs := collections.value;
    trend := map[];
    var i := 0;
    while i < |rs|
      invariant 0 <= i <= |rs|
      invariant trend == GroupSum(rs[..i], DateOf, VolumeOf)
    {
      assert rs[..i + 1][..i] == rs[..i];
      var day := rs[i].collectionDate;
      trend := trend[day := (if day in trend then trend[day] else 0) + rs[i].totalVolume];
      i := i + 1;
    }
    assert rs[..i] == rs;
    GroupSumTotal(rs, DateOf, VolumeOf);
    forall day ensures (day in trend <==> exists i :: 0 <= i < |rs| && rs[i].collectionDate == day)
      && (day in trend ==> trend[day] == KeyedSum(rs, DateOf, VolumeOf, day))
    {
      GroupSumAt(rs, DateOf, VolumeOf, day);
    }
  }

  /** `mapMarkers`: the markers of `dashboardData`, field by field, or none
      while the query has not answered. */
  function ClientMarkers(markers: Option<seq<Marker>>): (ms: seq<Marker>)
    ensures markers.None? ==> ms == []
    ensures markers.Some? ==> |ms| == |markers.value|
    ensures markers.Some? ==> forall i :: 0 <= i < |ms| ==> ms[i] == markers.value[i]
  {
    match markers
    case None => []
    case Some(v) =>
      seq(|v|, i requires 0 <= i < |v| =>
        Marker(v[i].id, v[i].lat, v[i].lng, v[i].siteName, v[i].wasteType, v[i].volume, v[i].date))
  }

  // ----- filter state -----

  /** The page state the handlers change: the filters sent to `filtered`
      and the selected marker. */
  datatype ViewState = ViewState(filters: FilterInput, selected: Option<Marker>)

  /** The initial filters: empty text, no waste type, any separation. */
  const EmptyFilters: FilterInput :=
    FilterInput(Some(""), None, Some(""), Some(""), Some(""), Some(""), None, Some(""), Some(""))

  /** `handleResetFilters`. */
  function ResetFilters(s: ViewState): (r: ViewState)
    ensures r.selected.None?
    ensures forall name: TextField :: !Truthy(Get(r.filters, name))
    ensures r.filters.wasteSeparated.None?
    ensures Blank(r.filters)
  {
    ViewState(EmptyFilters, None)
  }

  /** After a reset the query passes `filterSchema`, is sent as built, so
      `Filtered` answers `Keep` of the table, and that is every record. */
  lemma ResetShowsAll(rs: seq<Collection>, s: ViewState, parsers: Parsers)
    ensures FilterIssues(ResetFilters(s).filters) == []
    ensures !BadNumber(ResetFilters(s).filters.minCollections, parsers)
    ensures Keep(rs, ResetFilters(s).filters, parsers) == rs
  {
    BlankKeepsAll(rs, ResetFilters(s).filters, parsers);
  }

  /** `handleMarkerClick`: select the marker and filter on its site only;
      the two selects become undefined and every other text field "". */
  function MarkerClick(s: ViewState, m: Marker): (r: ViewState)
    ensures r.selected == Some(m)
    ensures Get(r.filters, SiteNameField) == Some(m.siteName)
    ensures r.filters.wasteType.None? && r.filters.wasteSeparated.None?
    ensures forall other: TextField :: other != SiteNameField && other != WasteTypeField ==>
      Get(r.filters, other) == Some("")
    ensures FilterIssues(r.filters) == []
  {
    ViewState(EmptyFilters.(siteName := Some(m.siteName)), Some(m))
  }

  lemma ContainsItself(s: string)
    ensures Contains(s, s)
  {
    assert s[..|s|] == s;
  }

  /** After a marker click the query passes `filterSchema` and is sent as
      built, so `Filtered` answers `Keep` of the table: the records whose site
      contains the marker's site name, including every record at that very
      site. */
  lemma MarkerClickShowsSite(rs: seq<Collection>, s: ViewState, m: Marker, parsers: Parsers)
    ensures FilterIssues(MarkerClick(s, m).filters) == []
    ensures !BadNumber(MarkerClick(s, m).filters.minCollections, parsers)
    ensures forall i :: 0 <= i < |Keep(rs, MarkerClick(s, m).filters, parsers)| ==>
      Contains(Keep(rs, MarkerClick(s, m).filters, parsers)[i].siteName, m.siteName)
    ensures forall j :: 0 <= j < |rs| && rs[j].siteName == m.siteName ==>
      rs[j] in Keep(rs, MarkerClick(s, m).filters, parsers)
  {
    var f := MarkerClick(s, m).filters;
    var r := Keep(rs, f, parsers);
    forall i | 0 <= i < |r| ensures Contains(r[i].siteName, m.siteName) {
      assert Demands(f, parsers, SiteCriterion, r[i]);
      if m.siteName == "" {
        assert IsPrefix(m.siteName, r[i].siteName);
      }
    }
    forall j | 0 <= j < |rs| && rs[j].siteName == m.siteName ensures rs[j] in r {
      ContainsItself(m.siteName);
      forall k: Criterion ensures Demands(f, parsers, k, rs[j]) {
      }
    }
  }

  /** The `filtered` query the page sends with its filters right after a
      marker click: it answers the records whose site contains the marker's
      site name, every record at that very site among them. */
  method ClickedSiteRecords(db: Database?, s: ViewState, m: Marker, parsers: Parsers)
    returns (r: Result<seq<Collection>, ApiError>)
    ensures db == null ==> r == Err(NotAvailable)
    ensures db != null ==> r == Ok(Keep(db.collections, MarkerClick(s, m).filters, parsers))
    ensures db != null ==>
      && (forall i :: 0 <= i < |r.value| ==> r.value[i] in db.collections && Contains(r.value[i].siteName, m.siteName))
      && (forall j :: 0 <= j < |db.collections| && db.collections[j].siteName == m.siteName ==>
            db.collections[j] in r.value)
  {
    r := Filtered(db, MarkerClick(s, m).filters, parsers);
    if db != null {
      MarkerClickShowsSite(db.collections, s, m, parsers);
    }
  }

  /** The text-valued filter fields, by their `name` attribute. */
  datatype TextField =
    | SiteNameField | WasteTypeField | StartDateField | EndDateField
    | MinVolumeField | MaxVolumeField | MinCollectionsField | MinOrganicField

  function Get(f: FilterInput, name: TextField): Option<string>
  {
    match name
    case SiteNameField => f.siteName
    case WasteTypeField => f.wasteType
    case StartDateField => f.startDate
    case EndDateField => f.endDate
    case MinVolumeField => f.minVolume
    case MaxVolumeField => f.maxVolume
    case MinCollectionsField => f.minCollections
    case MinOrganicField => f.minOrganicVolume
  }

  function Set(f: FilterInput, name: TextField, v: Option<string>): FilterInput
  {
    match name
    case SiteNameField => f.(siteName := v)
    case WasteTypeField => f.(wasteType := v)
    case StartDateField => f.(startDate := v)
    case EndDateField => f.(endDate := v)
    case MinVolumeField => f.(minVolume := v)
    case MaxVolumeField => f.(maxVolume := v)
    case MinCollectionsField => f.(minCollections := v)
    case MinOrganicField => f.(minOrganicVolume := v)
  }

  /** `value || undefined`. */
  function OrUndefined(value: string): Option<string>
  {
    if value == "" then None else Some(value)
  }

  /** `handleFilterChange`: deselect, clear the site name, then set the named
      field to the value, or to undefined when it is empty. */
  function FilterChange(s: ViewState, name: TextField, value: string): (r: ViewState)
    ensures r.selected.None?
    ensures Get(r.filters, name) == (if value == "" then None else Some(value))
    ensures forall other: TextField :: other != name ==>
      Get(r.filters, other) == (if other == SiteNameField then Some("") else Get(s.filters, other))
    ensures r.filters.wasteSeparated == s.filters.wasteSeparated
  {
    ViewState(Set(s.filters.(siteName := Some("")), name, OrUndefined(value)), None)
  }

  /** The inline handler of the "Waste Separated" select. */
  function SeparatedChange(s: ViewState, value: string): (r: ViewState)
    ensures r.selected.None?
    ensures r.filters.wasteSeparated == (if value == "any" then None else Some(value == "true"))
    ensures r.filters == s.filters.(siteName := Some(""), wasteSeparated := r.filters.wasteSeparated)
  {
    ViewState(s.filters.(siteName := Some(""), wasteSeparated := if value == "any" then None else Some(value == "true")), None)
  }

  /** What the two selects display for the current filters. */
  function TypeShown(f: FilterInput): string
  {
    if f.wasteType.Some? then f.wasteType.value else ""
  }

  function SeparatedShown(f: FilterInput): string
  {
    if f.wasteSeparated.None? then "any" else if f.wasteSeparated.value then "true" else "false"
  }

  const TypeOptions: set<string> := {"", "Organic", "Inorganic", "Mixed"}
  const SeparatedOptions: set<string> := {"any", "true", "false"}

  /** Choosing an option makes the select display that option, and the
      resulting filters still pass `filterSchema`. */
  lemma SelectsRoundTrip(s: ViewState, v: string)
    requires FilterIssues(s.filters) == []
    ensures v in TypeOptions ==>
      TypeShown(FilterChange(s, WasteTypeField, v).filters) == v
      && FilterIssues(FilterChange(s, WasteTypeField, v).filters) == []
    ensures v in SeparatedOptions ==>
      SeparatedShown(SeparatedChange(s, v).filters) == v
      && FilterIssues(SeparatedChange(s, v).filters) == []
  {
  }

  /** A text field other than the waste type never makes the query invalid. */
  lemma FilterChangeKeepsQueryValid(s: ViewState, name: TextField, value: string)
    requires FilterIssues(s.filters) == []
    requires name != WasteTypeField
    ensures FilterIssues(FilterChange(s, name, value).filters) == []
  {
  }
}
