/** The advanced filter panel: a filter specification, the filter engine that
    keeps the rows satisfying every active criterion, the active-criteria
    badge count, list toggling, and the panel's state. */
module AdvancedFilters {
  import opened Common
  import opened CampaignData

  /** A date input: empty (no bound), a date, or text that does not parse
      (an `Invalid Date`, with which every comparison is false). */
  datatype DateInput = Unset | Given(date: Date) | Unparsable

  datatype Range = Range(min: real, max: real)

  datatype FilterState = FilterState(
    start: DateInput,
    end: DateInput,
    status: seq<Status>,
    category: seq<Category>,
    platform: seq<Platform>,
    roiRange: Range,
    costRange: Range,
    searchTerm: string)

  const RoiCeiling: real := 1000.0
  const CostCeiling: real := 50000.0

  /** The filters the panel starts from and returns to: no criterion is
      active, and the ranges span 0 to the ceilings. */
  function DefaultFilters(): (f: FilterState)
    ensures forall c :: !IsActive(f, c)
    ensures f.roiRange == Range(0.0, RoiCeiling) && f.costRange == Range(0.0, CostCeiling)
  {
    FilterState(Unset, Unset, [], [], [], Range(0.0, RoiCeiling), Range(0.0, CostCeiling), "")
  }

  // ------------------------------------------------- the criteria, one by one

  predicate StartOk(f: FilterState, r: TableRow)
  {
    match f.start
    case Unset => true
    case Given(d) => DateLe(d, r.startDate)
    case Unparsable => false
  }

  predicate EndOk(f: FilterState, r: TableRow)
  {
    match f.end
    case Unset => true
    case Given(d) => DateLe(r.endDate, d)
    case Unparsable => false
  }

  /** An empty allow-list accepts every value. */
  predicate Allowed<T(==)>(allow: seq<T>, v: T)
  {
    |allow| == 0 || v in allow
  }

  predicate InRange(x: real, range: Range)
  {
    range.min <= x <= range.max
  }

  /** Case-insensitive substring search on the campaign name. */
  predicate SearchOk(f: FilterState, r: TableRow)
  {
    f.searchTerm == "" || Contains(Lower(r.campaign), Lower(f.searchTerm))
  }

  /** A row survives the filters iff it satisfies every criterion. The
      default filters test nothing but the ROI and cost ranges. */
  predicate RowMatches(f: FilterState, r: TableRow): (ok: bool)
    ensures f == DefaultFilters() ==>
      (ok <==> 0.0 <= r.roi <= RoiCeiling && 0.0 <= r.cost <= CostCeiling)
  {
    && StartOk(f, r)
    && EndOk(f, r)
    && Allowed(f.status, r.status)
    && Allowed(f.category, r.category)
    && Allowed(f.platform, r.platform)
    && InRange(r.roi, f.roiRange)
    && InRange(r.cost, f.costRange)
    && SearchOk(f, r)
  }

  /** The k-th step of the engine, in the order the source applies them. */
  predicate Check(f: FilterState, k: nat, r: TableRow)
  {
    if k == 0 then StartOk(f, r)
    else if k == 1 then EndOk(f, r)
    else if k == 2 then Allowed(f.status, r.status)
    else if k == 3 then Allowed(f.category, r.category)
    else if k == 4 then Allowed(f.platform, r.platform)
    else if k == 5 then InRange(r.roi, f.roiRange)
    else if k == 6 then InRange(r.cost, f.costRange)
    else SearchOk(f, r)
  }

  /** The first k steps together. */
  predicate Upto(f: FilterState, k: nat, r: TableRow)
  {
    && (k > 0 ==> StartOk(f, r))
    && (k > 1 ==> EndOk(f, r))
    && (k > 2 ==> Allowed(f.status, r.status))
    && (k > 3 ==> Allowed(f.category, r.category))
    && (k > 4 ==> Allowed(f.platform, r.platform))
    && (k > 5 ==> InRange(r.roi, f.roiRange))
    && (k > 6 ==> InRange(r.cost, f.costRange))
    && (k > 7 ==> SearchOk(f, r))
  }

  /** What the engine hands to `onFiltersChange`: some of the input rows,
      each satisfying every criterion. */
  function Filtered(data: seq<TableRow>, f: FilterState): (kept: seq<TableRow>)
    ensures |kept| <= |data|
    ensures forall i :: 0 <= i < |kept| ==> kept[i] in data && RowMatches(f, kept[i])
  {
    FilterMembers(data, r => RowMatches(f, r));
    Filter(data, r => RowMatches(f, r))
  }

  lemma UptoNext(f: FilterState, k: nat, r: TableRow)
    requires k < 8
    ensures Upto(f, k + 1, r) == (Upto(f, k, r) && Check(f, k, r))
  {
  }

  /** One active step narrows the rows kept by the earlier steps. */
  lemma {:induction false} ApplyStep(data: seq<TableRow>, f: FilterState, k: nat,
                                     filtered: seq<TableRow>, keep: TableRow -> bool)
    requires k < 8 && filtered == Filter(data, r => Upto(f, k, r))
    requires forall r :: keep(r) == Check(f, k, r)
    ensures Filter(filtered, keep) == Filter(data, r => Upto(f, k + 1, r))
  {
    forall r { UptoNext(f, k, r); }
    FilterFilter(data, r => Upto(f, k, r), keep, r => Upto(f, k + 1, r));
  }

  /** A skipped step is one every row passes. */
  lemma {:induction false} SkipStep(data: seq<TableRow>, f: FilterState, k: nat, filtered: seq<TableRow>)
    requires k < 8 && filtered == Filter(data, r => Upto(f, k, r))
    requires forall r :: Check(f, k, r)
    ensures filtered == Filter(data, r => Upto(f, k + 1, r))
  {
    forall r { UptoNext(f, k, r); }
    FilterSamePredicate(data, r => Upto(f, k, r), r => Upto(f, k + 1, r));
  }

  /** One guarded step of the engine: `if (active) filtered =
      filtered.filter(keep)`. */
  method Narrow(ghost data: seq<TableRow>, f: FilterState, k: nat, filtered: seq<TableRow>,
                active: bool, keep: TableRow -> bool) returns (next: seq<TableRow>)
    requires k < 8 && filtered == Filter(data, r => Upto(f, k, r))
    requires active ==> forall r :: keep(r) == Check(f, k, r)
    requires !active ==> forall r :: Check(f, k, r)
    ensures next == Filter(data, r => Upto(f, k + 1, r))
  {
    if active {
      ApplyStep(data, f, k, filtered, keep);
      next := Filter(filtered, keep);
    } else {
      SkipStep(data, f, k, filtered);
      next := filtered;
    }
  }

  /** The engine: each active criterion narrows `filtered` in turn; a step
      whose input is empty (no date, empty list, empty search) is skipped.
      The result is the rows satisfying every criterion, in input order. */
  method ApplyFilters(data: seq<TableRow>, f: FilterState) returns (filtered: seq<TableRow>)
    ensures filtered == Filtered(data, f)
  {
    filtered := data;
    FilterKeepsAll(data, r => Upto(f, 0, r));
    filtered := Narrow(data, f, 0, filtered, f.start != Unset, (r: TableRow) => StartOk(f, r));
    filtered := Narrow(data, f, 1, filtered, f.end != Unset, (r: TableRow) => EndOk(f, r));
    filtered := Narrow(data, f, 2, filtered, |f.status| > 0, (r: TableRow) => r.status in f.status);
    filtered := Narrow(data, f, 3, filtered, |f.category| > 0, (r: TableRow) => r.category in f.category);
    filtered := Narrow(data, f, 4, filtered, |f.platform| > 0, (r: TableRow) => r.platform in f.platform);
    filtered := Narrow(data, f, 5, filtered, true,
                       (r: TableRow) => r.roi >= f.roiRange.min && r.roi <= f.roiRange.max);
    filtered := Narrow(data, f, 6, filtered, true,
                       (r: TableRow) => r.cost >= f.costRange.min && r.cost <= f.costRange.max);
    var searchLower := Lower(f.searchTerm);
    filtered := Narrow(data, f, 7, filtered, f.searchTerm != "",
                       (r: TableRow) => Contains(Lower(r.campaign), searchLower));
    AllStepsFilter(data, f);
  }

  /** All eight steps together are the filter. */
  lemma AllStepsFilter(data: seq<TableRow>, f: FilterState)
    ensures Filter(data, r => Upto(f, 8, r)) == Filtered(data, f)
  {
    FilterSamePredicate(data, r => Upto(f, 8, r), r => RowMatches(f, r));
  }

  // ------------------------------------------------------ what filtering means

  /** The survivors keep their relative order: the result is a subsequence. */
  lemma FilteredIsSubsequence(data: seq<TableRow>, f: FilterState)
    ensures IsSubsequence(Filtered(data, f), data)
  {
    FilterIsSubsequence(data, r => RowMatches(f, r));
  }

  /** Filtering is the conjunction of the criteria: a row is in the result
      iff it is in the input and satisfies every criterion. */
  lemma FilteredMembers(data: seq<TableRow>, f: FilterState)
    ensures forall r :: r in Filtered(data, f) <==> r in data && RowMatches(f, r)
  {
    FilterMembers(data, r => RowMatches(f, r));
    forall r | r in data && RowMatches(f, r) ensures r in Filtered(data, f) {
      var i :| 0 <= i < |data| && data[i] == r;
    }
  }

  /** With the default filters every row inside the default ROI and cost
      ranges survives, so the input comes back unchanged. */
  lemma DefaultFiltersKeepInRange(data: seq<TableRow>)
    requires forall i :: 0 <= i < |data| ==>
      0.0 <= data[i].roi <= RoiCeiling && 0.0 <= data[i].cost <= CostCeiling
    ensures Filtered(data, DefaultFilters()) == data
  {
    FilterKeepsAll(data, r => RowMatches(DefaultFilters(), r));
  }

  /** The ROI and cost ranges are applied even at their defaults: a row above
      the default ROI ceiling is dropped although no criterion is active. */
  lemma DefaultFiltersDropHighRoi(r: TableRow)
    requires r.roi > RoiCeiling
    ensures Filtered([r], DefaultFilters()) == []
    ensures ActiveCount(DefaultFilters()) == 0
  {
    assert Filtered([r], DefaultFilters()) == Filtered([], DefaultFilters());
  }

  /** The seed rows pass the default filters unchanged. */
  lemma FixtureUnchangedByDefaults()
    ensures Filtered(CampaignTableData(), DefaultFilters()) == CampaignTableData()
  {
    FixtureWithinDefaultRanges();
    DefaultFiltersKeepInRange(CampaignTableData());
  }

  /** The search ignores the case of the search term. */
  lemma SearchIgnoresCase(f: FilterState, r: TableRow)
    ensures RowMatches(f.(searchTerm := Upper(f.searchTerm)), r) == RowMatches(f, r)
  {
    assert Lower(Upper(f.searchTerm)) == Lower(f.searchTerm);
  }

  // ---------------------------------------------------------- the badge count

  /** The criteria the badge counts, in the order it checks them. */
  datatype Criterion = DateCriterion | StatusCriterion | CategoryCriterion | PlatformCriterion
                     | RoiCriterion | CostCriterion | SearchCriterion

  const Criteria: seq<Criterion> :=
    [DateCriterion, StatusCriterion, CategoryCriterion, PlatformCriterion,
     RoiCriterion, CostCriterion, SearchCriterion]

  /** Whether the user has moved a criterion away from its default. */
  predicate IsActive(f: FilterState, c: Criterion)
  {
    match c
    case DateCriterion => f.start != Unset || f.end != Unset
    case StatusCriterion => |f.status| > 0
    case CategoryCriterion => |f.category| > 0
    case PlatformCriterion => |f.platform| > 0
    case RoiCriterion => f.roiRange.min > 0.0 || f.roiRange.max < RoiCeiling
    case CostCriterion => f.costRange.min > 0.0 || f.costRange.max < CostCeiling
    case SearchCriterion => f.searchTerm != ""
  }

  function Indicator(b: bool): nat
  {
    if b then 1 else 0
  }

  /** How many criteria are active: one for each criterion of the list, so
      at most seven, and none exactly when no criterion is active. */
  function ActiveCount(f: FilterState): (n: nat)
    ensures n <= |Criteria|
    ensures n == 0 <==> forall c :: !IsActive(f, c)
  {
     Indicator(IsActive(f, DateCriterion))
    + Indicator(IsActive(f, StatusCriterion))
    + Indicator(IsActive(f, CategoryCriterion))
    + Indicator(IsActive(f, PlatformCriterion))
    + Indicator(IsActive(f, RoiCriterion))
    + Indicator(IsActive(f, CostCriterion))
    + Indicator(IsActive(f, SearchCriterion))
  }

  /** The count is at most seven, and zero exactly when every criterion is
      at its default; the default filters count zero. */
  lemma ActiveCountRange(f: FilterState)
    ensures ActiveCount(f) <= |Criteria|
    ensures ActiveCount(f) == 0 <==> forall c :: !IsActive(f, c)
    ensures ActiveCount(DefaultFilters()) == 0
  {
    if ActiveCount(f) == 0 {
      forall c ensures !IsActive(f, c) {
        match c
        case DateCriterion =>
        case StatusCriterion =>
        case CategoryCriterion =>
        case PlatformCriterion =>
        case RoiCriterion =>
        case CostCriterion =>
        case SearchCriterion =>
      }
    }
  }

  /** The badge count. */
  method CountActiveFilters(f: FilterState) returns (count: nat)
    ensures count == ActiveCount(f)
  {
    count := 0;
    if f.start != Unset || f.end != Unset {
      count := count + 1;
    }
    if |f.status| > 0 {
      count := count + 1;
    }
    if |f.category| > 0 {
      count := count + 1;
    }
    if |f.platform| > 0 {
      count := count + 1;
    }
    if f.roiRange.min > 0.0 || f.roiRange.max < RoiCeiling {
      count := count + 1;
    }
    if f.costRange.min > 0.0 || f.costRange.max < CostCeiling {
      count := count + 1;
    }
    if f.searchTerm != "" {
      count := count + 1;
    }
  }

  // ------------------------------------------------------------ list toggling

  /** `toggleArrayFilter`: drop every copy of a present value, append an
      absent one. */
  function Toggle<T(==)>(xs: seq<T>, v: T): (r: seq<T>)
    ensures v in r <==> v !in xs
    ensures v !in xs ==> |r| == |xs| + 1 && r[..|xs|] == xs
  {
    if v in xs then RemoveAll(xs, v) else xs + [v]
  }

  /** Toggling leaves the other values' membership alone, and toggling twice
      restores the membership of every value. */
  lemma ToggleTwice<T>(xs: seq<T>, v: T)
    ensures forall x :: x != v ==> (x in Toggle(xs, v) <==> x in xs)
    ensures forall x :: x in Toggle(Toggle(xs, v), v) <==> x in xs
  {
    FilterMembers(xs, x => x != v);
    FilterMembers(xs + [v], x => x != v);
    forall x | x in xs && x != v ensures x in RemoveAll(xs, v) {
      var i :| 0 <= i < |xs| && xs[i] == x;
    }
    forall x | x in xs + [v] && x != v ensures x in RemoveAll(xs + [v], v) {
      var i :| 0 <= i < |xs + [v]| && (xs + [v])[i] == x;
    }
  }

  // ------------------------------------------------------------- panel state

  /** A partial update (`Partial<FilterState>`): the fields to replace. */
  datatype FilterPatch = FilterPatch(
    start: Option<DateInput>,
    end: Option<DateInput>,
    status: Option<seq<Status>>,
    category: Option<seq<Category>>,
    platform: Option<seq<Platform>>,
    roiRange: Option<Range>,
    costRange: Option<Range>,
    searchTerm: Option<string>)

  function Pick<T>(given: Option<T>, current: T): T
  {
    match given
    case Some(v) => v
    case None => current
  }

  /** `{ ...filters, ...patch }`: each of the eight fields comes from the
      patch when the patch names it and is kept otherwise, so an empty patch
      changes nothing. */
  function Merge(f: FilterState, patch: FilterPatch): (g: FilterState)
    ensures patch == NoChange ==> g == f
    ensures patch.start.Some? ==> g.start == patch.start.value
    ensures patch.start.None? ==> g.start == f.start
    ensures patch.end.Some? ==> g.end == patch.end.value
    ensures patch.end.None? ==> g.end == f.end
    ensures patch.status.Some? ==> g.status == patch.status.value
    ensures patch.status.None? ==> g.status == f.status
    ensures patch.category.Some? ==> g.category == patch.category.value
    ensures patch.category.None? ==> g.category == f.category
    ensures patch.platform.Some? ==> g.platform == patch.platform.value
    ensures patch.platform.None? ==> g.platform == f.platform
    ensures patch.roiRange.Some? ==> g.roiRange == patch.roiRange.value
    ensures patch.roiRange.None? ==> g.roiRange == f.roiRange
    ensures patch.costRange.Some? ==> g.costRange == patch.costRange.value
    ensures patch.costRange.None? ==> g.costRange == f.costRange
    ensures patch.searchTerm.Some? ==> g.searchTerm == patch.searchTerm.value
    ensures patch.searchTerm.None? ==> g.searchTerm == f.searchTerm
  {
    FilterState(Pick(patch.start, f.start), Pick(patch.end, f.end),
                Pick(patch.status, f.status), Pick(patch.category, f.category),
                Pick(patch.platform, f.platform), Pick(patch.roiRange, f.roiRange),
                Pick(patch.costRange, f.costRange), Pick(patch.searchTerm, f.searchTerm))
  }

  const NoChange: FilterPatch := FilterPatch(None, None, None, None, None, None, None, None)

  /** Merging keeps the start date and the ranges the patch does not name,
      and applying the same patch twice changes nothing more than applying
      it once. */
  lemma MergeFields(f: FilterState, patch: FilterPatch)
    ensures patch.start.None? ==> Merge(f, patch).start == f.start
    ensures patch.roiRange.None? && patch.costRange.None? ==>
      Merge(f, patch).roiRange == f.roiRange && Merge(f, patch).costRange == f.costRange
    ensures Merge(Merge(f, patch), patch) == Merge(f, patch)
  {
  }

  /** Which list a toggle acts on, with the value toggled. */
  datatype ListToggle = ToggleStatus(s: Status) | ToggleCategory(c: Category) | TogglePlatform(p: Platform)

  function ApplyToggle(f: FilterState, t: ListToggle): FilterState
  {
    match t
    case ToggleStatus(s) => f.(status := Toggle(f.status, s))
    case ToggleCategory(c) => f.(category := Toggle(f.category, c))
    case TogglePlatform(p) => f.(platform := Toggle(f.platform, p))
  }

  /** The state the panel keeps: the full data it was given, the current
      filters, and the last row list it handed to `onFiltersChange`. */
  class FilterPanel {
    const data: seq<TableRow>
    var filters: FilterState
    var emitted: Option<seq<TableRow>>

    constructor (data: seq<TableRow>, initial: FilterPatch)
      ensures this.data == data
      ensures filters == Merge(DefaultFilters(), initial)
      ensures emitted == None
    {
      this.data := data;
      filters := Merge(DefaultFilters(), initial);
      emitted := None;
    }

    /** `updateFilters`: merge the patch, then hand on the filtered rows. */
    method UpdateFilters(patch: FilterPatch)
      modifies this
      ensures filters == Merge(old(filters), patch)
      ensures emitted == Some(Filtered(data, filters))
    {
      var updated := Merge(filters, patch);
      filters := updated;
      var rows := ApplyFilters(data, updated);
      emitted := Some(rows);
    }

    /** `toggleArrayFilter`, routed through `updateFilters`. */
    method ToggleArrayFilter(t: ListToggle)
      modifies this
      ensures filters == ApplyToggle(old(filters), t)
      ensures emitted == Some(Filtered(data, filters))
    {
      var patch := match t
        case ToggleStatus(s) => NoChange.(status := Some(Toggle(filters.status, s)))
        case ToggleCategory(c) => NoChange.(category := Some(Toggle(filters.category, c)))
        case TogglePlatform(p) => NoChange.(platform := Some(Toggle(filters.platform, p)));
      UpdateFilters(patch);
    }

    /** `clearAllFilters`: back to the defaults, handing on the unfiltered rows. */
    method ClearAllFilters()
      modifies this
      ensures filters == DefaultFilters()
      ensures emitted == Some(data)
    {
      filters := DefaultFilters();
      emitted := Some(data);
    }
  }
}
