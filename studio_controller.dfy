/** The studio controller: the catalogue listing and its filters, the
    lookup by id, the truthy-merge update, the guarded soft delete and the
    availability query of one studio.
 */
module StudioController {

  import opened Wrappers
  import opened Seqs
  import Text
  import opened Studios
  import opened Bookings
  import opened Inventory

  const NotFound := "Studio not found"
  const HasActiveBookings := "Cannot delete studio with active bookings"
  const Removed := "Studio removed"
  const DatesMissing := "Please provide start and end dates"
  const DatesReversed := "End date must be after start date"

  // ---------------------------------------------------------------------------
  // getStudios

  /** The query string of `GET /api/studios`. A rate is None when absent or
      empty; the feature text and the times are None when absent. */
  datatype StudioQuery = StudioQuery(
    available: Option<string>,
    minRate: Option<real>,
    maxRate: Option<real>,
    features: Option<string>,
    startTime: Option<int>,
    endTime: Option<int>)

  /** `ORDER BY name ASC`. */
  predicate NameAsc(a: Studio, b: Studio) { Text.LexLe(a.name, b.name) }

  lemma NameAscOrder()
    ensures TotalPreorder(NameAsc)
  {
    forall a: Studio, b: Studio ensures NameAsc(a, b) || NameAsc(b, a) {
      Text.LexLeTotal(a.name, b.name);
    }
    forall a: Studio, b: Studio, c: Studio | NameAsc(a, b) && NameAsc(b, c) ensures NameAsc(a, c) {
      Text.LexLeTransitive(a.name, b.name, c.name);
    }
  }

  /** The `where` of the studio query: active, and within the given rate bounds
      (both inclusive). Soft-deleted studios are never returned. */
  predicate InRateRange(s: Studio, q: StudioQuery)
  {
    && s.isActive && !s.deleted
    && (q.minRate.Some? ==> s.hourlyRate >= q.minRate.value)
    && (q.maxRate.Some? ==> s.hourlyRate <= q.maxRate.value)
  }

  /** Every requested feature is among the studio's; a NULL list counts as empty. */
  predicate HasFeatures(s: Studio, wanted: seq<string>)
  {
    var own := if s.features.Some? then s.features.value else [];
    forall f :: f in wanted ==> f in own
  }

  /** The feature filter is on only for a non-empty text, as `if (features)` has it. */
  predicate FeaturesRequested(q: StudioQuery)
  {
    q.features.Some? && q.features.value != ""
  }

  /** The availability filter is on only for `available=true` with both times. */
  predicate AvailabilityRequested(q: StudioQuery)
  {
    q.available == Some("true") && q.startTime.Some? && q.endTime.Some?
  }

  /** Some live booking of the studio passes the three-way test for [s, e]. */
  predicate BookedDuring(bookings: seq<Booking>, studioId: nat, s: int, e: int)
  {
    exists b :: b in bookings && Blocks(b, studioId, s, e)
  }

  /** The studio ids of the bookings the availability query finds. Unlike the
      admission hook, the query is not restricted to one studio. */
  function BookedStudioIds(bookings: seq<Booking>, s: int, e: int): (ids: set<nat>)
    ensures forall id :: id in ids <==> BookedDuring(bookings, id, s, e)
  {
    set b | b in bookings && b.status != BookingStatus.Cancelled && ThreeWay(b.startTime, b.endTime, s, e) :: b.studioId
  }

  /** The feature filter of `getStudios`, on a single studio. */
  predicate Equipped(s: Studio, q: StudioQuery)
  {
    FeaturesRequested(q) ==> HasFeatures(s, Text.Split(q.features.value, ','))
  }

  /** The conditions of `getStudios` a studio row must meet to be listed. */
  predicate Listed(s: Studio, bookings: seq<Booking>, q: StudioQuery)
  {
    && InRateRange(s, q)
    && Equipped(s, q)
    && (AvailabilityRequested(q) ==> !BookedDuring(bookings, s.id, q.startTime.value, q.endTime.value))
  }

  /** The first two stages of `getStudios`: the `findAll` with its rate
      bounds and name order, then the in-memory feature filter. */
  function Catalogue(studios: seq<Studio>, q: StudioQuery): (r: seq<Studio>)
    ensures Sorted(r, NameAsc)
    ensures forall s :: s in r <==> s in studios && InRateRange(s, q) && Equipped(s, q)
    ensures forall s :: multiset(r)[s] == if InRateRange(s, q) && Equipped(s, q) then multiset(studios)[s] else 0
  {
    NameAscOrder();
    var keep := (s: Studio) => InRateRange(s, q);
    FilterCounts(studios, keep);
    var listed := Filter(studios, keep);
    SortByMembers(listed, NameAsc);
    var ordered := SortBy(listed, NameAsc);
    if FeaturesRequested(q) then
      var wanted := Text.Split(q.features.value, ',');
      var equipped := (s: Studio) => HasFeatures(s, wanted);
      FilterKeepsSorted(ordered, equipped, NameAsc);
      FilterCounts(ordered, equipped);
      Filter(ordered, equipped)
    else ordered
  }

  /** `getStudios`: active studios within the rate bounds, sorted by name,
      then those with every requested feature, then, when asked, those
      without a clashing booking, each filter keeping the order. */
  function GetStudios(studios: seq<Studio>, bookings: seq<Booking>, q: StudioQuery): (r: seq<Studio>)
    ensures Sorted(r, NameAsc)
    ensures forall s :: s in r <==>
              && s in studios && InRateRange(s, q)
              && (FeaturesRequested(q) ==> HasFeatures(s, Text.Split(q.features.value, ',')))
              && (AvailabilityRequested(q) ==> !BookedDuring(bookings, s.id, q.startTime.value, q.endTime.value))
    ensures forall s :: multiset(r)[s] == if Listed(s, bookings, q) then multiset(studios)[s] else 0
  {
    var featured := Catalogue(studios, q);
    if AvailabilityRequested(q) then
      var booked := BookedStudioIds(bookings, q.startTime.value, q.endTime.value);
      var free := (s: Studio) => s.id !in booked;
      FilterKeepsSorted(featured, free, NameAsc);
      FilterCounts(featured, free);
      Filter(featured, free)
    else featured
  }

  /** Asking for `features=a,b,c` with comma-free names keeps exactly the
      studios that have every one of those names. */
  lemma FeatureListRoundTrip(studios: seq<Studio>, bookings: seq<Booking>, q: StudioQuery, names: seq<string>)
    requires |names| >= 1 && forall i :: 0 <= i < |names| ==> ',' !in names[i]
    requires names != [""] && q.features == Some(Text.Join(names, ","))
    ensures forall s :: s in GetStudios(studios, bookings, q) <==>
              && s in studios && InRateRange(s, q) && HasFeatures(s, names)
              && (AvailabilityRequested(q) ==> !BookedDuring(bookings, s.id, q.startTime.value, q.endTime.value))
  {
    Text.SplitJoin(names, ',');
  }

  // ---------------------------------------------------------------------------
  // getStudioById

  /** `getStudioById`: the studio with its (not deleted) equipment, or 404. */
  function GetStudioById(studios: seq<Studio>, equipment: seq<Equipment>, id: nat): (r: Result<(Studio, seq<Equipment>)>)
    ensures r.Err? <==> FindByPk(studios, id).None?
    ensures r.Err? ==> r == Fail(404, NotFound)
    ensures r.Ok? ==>
              && r.value.0 in studios && r.value.0.id == id && !r.value.0.deleted
              && (forall e :: e in r.value.1 <==> e in equipment && e.studioId == id && !e.deleted)
              && (forall e :: multiset(r.value.1)[e] ==
                    if e.studioId == id && !e.deleted then multiset(equipment)[e] else 0)
  {
    match FindByPk(studios, id)
    case None => Fail(404, NotFound)
    case Some(s) =>
      var keep := (e: Equipment) => e.studioId == id && !e.deleted;
      FilterCounts(equipment, keep);
      Ok((s, Filter(equipment, keep)))
  }

  // ---------------------------------------------------------------------------
  // updateStudio

  /** The body of `PUT /api/studios/:id`; None is an absent field. */
  datatype StudioPatch = StudioPatch(
    name: Option<string>,
    description: Option<string>,
    hourlyRate: Option<real>,
    sizeSqft: Option<int>,
    maxCapacity: Option<int>,
    features: Option<seq<string>>,
    imageUrl: Option<string>,
    isActive: Option<bool>)

  /** JavaScript truthiness of the values `||` tests: an empty string and
      zero are falsy, every array is truthy. */
  predicate TruthyText(v: Option<string>) { v.Some? && v.value != "" }
  predicate TruthyReal(v: Option<real>) { v.Some? && v.value != 0.0 }
  predicate TruthyInt(v: Option<int>) { v.Some? && v.value != 0 }

  /** `field = value || field` for each field, and `isActive` replaced
      whenever it is given. */
  function Merge(s: Studio, p: StudioPatch): (r: Studio)
    ensures r.id == s.id && r.deleted == s.deleted
    ensures r.name == (if TruthyText(p.name) then p.name.value else s.name)
    ensures r.description == (if TruthyText(p.description) then p.description else s.description)
    ensures r.hourlyRate == (if TruthyReal(p.hourlyRate) then p.hourlyRate.value else s.hourlyRate)
    ensures r.sizeSqft == (if TruthyInt(p.sizeSqft) then p.sizeSqft else s.sizeSqft)
    ensures r.maxCapacity == (if TruthyInt(p.maxCapacity) then p.maxCapacity else s.maxCapacity)
    ensures r.features == (if p.features.Some? then p.features else s.features)
    ensures r.imageUrl == (if TruthyText(p.imageUrl) then p.imageUrl else s.imageUrl)
    ensures r.isActive == (if p.isActive.Some? then p.isActive.value else s.isActive)
  {
    s.(name := if TruthyText(p.name) then p.name.value else s.name,
       description := if TruthyText(p.description) then p.description else s.description,
       hourlyRate := if TruthyReal(p.hourlyRate) then p.hourlyRate.value else s.hourlyRate,
       sizeSqft := if TruthyInt(p.sizeSqft) then p.sizeSqft else s.sizeSqft,
       maxCapacity := if TruthyInt(p.maxCapacity) then p.maxCapacity else s.maxCapacity,
       features := if p.features.Some? then p.features else s.features,
       imageUrl := if TruthyText(p.imageUrl) then p.imageUrl else s.imageUrl,
       isActive := if p.isActive.Some? then p.isActive.value else s.isActive)
  }

  /** Zero rates and sizes, empty strings and an absent `isActive` change
      nothing; `isActive: false` does. */
  lemma FalsyPatchKeepsStudio(s: Studio)
    ensures Merge(s, StudioPatch(Some(""), Some(""), Some(0.0), Some(0), Some(0), None, Some(""), None)) == s
    ensures Merge(s, StudioPatch(None, None, None, None, None, None, None, Some(false))) == s.(isActive := false)
  {
  }

  /** Applying the same update twice is applying it once. */
  lemma MergeIdempotent(s: Studio, p: StudioPatch)
    ensures Merge(Merge(s, p), p) == Merge(s, p)
  {
  }

  // ---------------------------------------------------------------------------
  // deleteStudio

  /** A booking that keeps its studio from being deleted: not cancelled, not
      completed, and starting now or later. */
  predicate ActiveAt(b: Booking, studioId: nat, now: int)
  {
    b.studioId == studioId && b.status !in {BookingStatus.Cancelled, BookingStatus.Completed} && b.startTime >= now
  }

  /** `findByPk` in the studio table: the first row with the id that is not deleted. */
  function IndexOfStudio(rows: seq<Studio>, id: nat): (r: Option<nat>)
    ensures r.Some? ==> r.value < |rows| && rows[r.value].id == id && !rows[r.value].deleted
    ensures r.Some? <==> FindByPk(rows, id).Some?
    ensures r.Some? ==> FindByPk(rows, id) == Some(rows[r.value])
  {
    FirstIndex(rows, (s: Studio) => s.id == id && !s.deleted)
  }

  class StudioTable {
    var rows: seq<Studio>
    var nextId: nat

    /** Every stored studio has its own id, below the next one handed out. */
    ghost predicate Valid()
      reads this
    {
      && (forall i :: 0 <= i < |rows| ==> rows[i].id < nextId)
      && (forall i, j :: 0 <= i < j < |rows| ==> rows[i].id != rows[j].id)
    }

    constructor ()
      ensures Valid() && rows == [] && nextId == 0
    {
      rows := [];
      nextId := 0;
    }

    /** `createStudio`: the row `Studio.create` builds is stored under a fresh id. */
    method Create(input: StudioInput) returns (r: Result<Studio>)
      requires Valid()
      modifies this
      ensures Valid()
      ensures r == Build(old(nextId), input)
      ensures r.Ok? ==> forall s :: s in old(rows) ==> s.id != r.value.id
      ensures r.Ok? ==> rows == old(rows) + [r.value] && nextId == old(nextId) + 1
      ensures r.Err? ==> rows == old(rows) && nextId == old(nextId)
    {
      r := Build(nextId, input);
      if r.Ok? {
        rows := rows + [r.value];
        nextId := nextId + 1;
      }
    }

    /** `updateStudio`: 404 for an unknown studio, otherwise the merge is saved. */
    method Update(id: nat, p: StudioPatch) returns (r: Result<Studio>)
      requires Valid()
      modifies this
      ensures Valid() && nextId == old(nextId)
      ensures r.Err? <==> IndexOfStudio(old(rows), id).None?
      ensures r.Err? ==> r == Fail(404, NotFound) && rows == old(rows)
      ensures r.Ok? ==>
                var i := IndexOfStudio(old(rows), id).value;
                && r.value == Merge(old(rows)[i], p)
                && rows == old(rows)[i := r.value]
    {
      var i := IndexOfStudio(rows, id);
      if i.None? {
        return Fail(404, NotFound);
      }
      var updated := Merge(rows[i.value], p);
      rows := rows[i.value := updated];
      r := Ok(updated);
    }

    /** `deleteStudio`: 404 for an unknown studio, 400 while it has an active
        booking, otherwise a soft delete; the bookings are not touched. */
    method Delete(id: nat, bookings: seq<Booking>, now: int) returns (r: Result<string>)
      requires Valid()
      modifies this
      ensures Valid() && nextId == old(nextId)
      ensures IndexOfStudio(old(rows), id).None? ==> r == Fail(404, NotFound) && rows == old(rows)
      ensures IndexOfStudio(old(rows), id).Some? && (exists b :: b in bookings && ActiveAt(b, id, now)) ==>
                r == Fail(400, HasActiveBookings) && rows == old(rows)
      ensures IndexOfStudio(old(rows), id).Some? && !(exists b :: b in bookings && ActiveAt(b, id, now)) ==>
                var i := IndexOfStudio(old(rows), id).value;
                && r == Ok(Removed)
                && rows == old(rows)[i := SoftDelete(old(rows)[i])]
    {
      var i := IndexOfStudio(rows, id);
      if i.None? {
        return Fail(404, NotFound);
      }
      var active := Filter(bookings, (b: Booking) => ActiveAt(b, id, now));
      if |active| > 0 {
        assert active[0] in active;
        return Fail(400, HasActiveBookings);
      }
      rows := rows[i.value := SoftDelete(rows[i.value])];
      r := Ok(Removed);
    }
  }

  // ---------------------------------------------------------------------------
  // getStudioAvailability

  /** A booking as the availability endpoint reports it. */
  datatype Slot = Slot(id: nat, startTime: int, endTime: int, status: BookingStatus)

  function SlotOf(b: Booking): Slot
  {
    Slot(b.id, b.startTime, b.endTime, b.status)
  }

  function Slots(bs: seq<Booking>): (r: seq<Slot>)
    ensures |r| == |bs| && forall i :: 0 <= i < |bs| ==> r[i] == SlotOf(bs[i])
  {
    seq(|bs|, i requires 0 <= i < |bs| => SlotOf(bs[i]))
  }

  lemma SlotsMembers(bs: seq<Booking>)
    ensures forall slot :: slot in Slots(bs) <==> exists b :: b in bs && slot == SlotOf(b)
  {
    var r := Slots(bs);
    forall slot ensures slot in r <==> exists b :: b in bs && slot == SlotOf(b) {
      if slot in r {
        var k :| 0 <= k < |r| && r[k] == slot;
        assert bs[k] in bs;
      }
      if exists b :: b in bs && slot == SlotOf(b) {
        var b :| b in bs && slot == SlotOf(b);
        var k :| 0 <= k < |bs| && bs[k] == b;
        assert r[k] == slot;
      }
    }
  }

  /** The bookings of the availability query, earliest first. */
  function BookingsDuring(bookings: seq<Booking>, studioId: nat, s: int, e: int): (r: seq<Booking>)
    ensures Sorted(r, StartAsc)
    ensures forall b :: b in r <==> b in bookings && Blocks(b, studioId, s, e)
    ensures forall b :: multiset(r)[b] == if Blocks(b, studioId, s, e) then multiset(bookings)[b] else 0
  {
    StartOrders();
    var keep := (b: Booking) => Blocks(b, studioId, s, e);
    FilterCounts(bookings, keep);
    var found := Filter(bookings, keep);
    SortByMembers(found, StartAsc);
    SortBy(found, StartAsc)
  }

  /** `getStudioAvailability`: 400 without both dates or when the start is
      not before the end; otherwise the studio's live bookings that pass the
      three-way test, earliest first. The studio itself is not looked up. */
  function GetStudioAvailability(bookings: seq<Booking>, studioId: nat, startDate: Option<int>, endDate: Option<int>)
    : (r: Result<seq<Slot>>)
    ensures startDate.None? || endDate.None? ==> r == Fail(400, DatesMissing)
    ensures startDate.Some? && endDate.Some? && startDate.value >= endDate.value ==> r == Fail(400, DatesReversed)
    ensures r.Ok? <==> startDate.Some? && endDate.Some? && startDate.value < endDate.value
    ensures r.Ok? ==>
              && (forall i, j :: 0 <= i < j < |r.value| ==> r.value[i].startTime <= r.value[j].startTime)
              && (forall slot :: slot in r.value <==>
                    exists b :: b in bookings && Blocks(b, studioId, startDate.value, endDate.value) && slot == SlotOf(b))
              && r.value == Slots(BookingsDuring(bookings, studioId, startDate.value, endDate.value))
  {
    if startDate.None? || endDate.None? then Fail(400, DatesMissing)
    else if startDate.value >= endDate.value then Fail(400, DatesReversed)
    else
      var found := BookingsDuring(bookings, studioId, startDate.value, endDate.value);
      SlotsMembers(found);
      assert forall i, j :: 0 <= i < j < |found| ==> StartAsc(found[i], found[j]);
      Ok(Slots(found))
  }
}
