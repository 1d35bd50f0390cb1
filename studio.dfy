/** The Studio model: its fields, the defaults and required fields applied
    on creation, soft deletion, and the `findAvailable` query.
 */
module Studios {

  import opened Wrappers
  import opened Seqs

  /** A studio row. `features` is None when the column holds NULL; `deleted`
      stands for a set `deletedAt` (the table is paranoid). */
  datatype Studio = Studio(
    id: nat,
    name: string,
    description: Option<string>,
    hourlyRate: real,
    sizeSqft: Option<int>,
    maxCapacity: Option<int>,
    features: Option<seq<string>>,
    imageUrl: Option<string>,
    isActive: bool,
    deleted: bool)

  /** The attributes given to `Studio.create`; None is an absent attribute. */
  datatype StudioInput = StudioInput(
    name: Option<string>,
    description: Option<string>,
    hourlyRate: Option<real>,
    sizeSqft: Option<int>,
    maxCapacity: Option<int>,
    features: Option<seq<string>>,
    imageUrl: Option<string>)

  const NameNull := "Studio.name cannot be null"
  const HourlyRateNull := "Studio.hourlyRate cannot be null"

  /** The messages of the not-null checks that fail, in field order. */
  function RequiredMissing(input: StudioInput): seq<string>
  {
    (if input.name.None? then [NameNull] else [])
    + (if input.hourlyRate.None? then [HourlyRateNull] else [])
  }

  /** `Studio.create`: rejects a missing name or rate, otherwise stores the
      given fields, an active studio and an empty feature list by default. */
  function Build(id: nat, input: StudioInput): (r: Result<Studio>)
    ensures r.Ok? <==> input.name.Some? && input.hourlyRate.Some?
    ensures r.Err? ==>
              && r.status == StatusUnset
              && r.error.name.SequelizeValidationError?
              && (NameNull in r.error.name.messages <==> input.name.None?)
              && (HourlyRateNull in r.error.name.messages <==> input.hourlyRate.None?)
    ensures r.Ok? ==>
              var s := r.value;
              && s.id == id && s.name == input.name.value && s.hourlyRate == input.hourlyRate.value
              && s.isActive && !s.deleted
              && s.features == Some(if input.features.Some? then input.features.value else [])
  {
    var missing := RequiredMissing(input);
    if missing != [] then Invalid(missing)
    else
      Ok(Studio(id, input.name.value, input.description, input.hourlyRate.value,
                input.sizeSqft, input.maxCapacity,
                Some(if input.features.Some? then input.features.value else []),
                input.imageUrl, true, false))
  }

  /** `findByPk`: the studio with that id, unless it was soft-deleted. */
  function FindByPk(studios: seq<Studio>, id: nat): (r: Option<Studio>)
    ensures r.Some? ==> r.value in studios && r.value.id == id && !r.value.deleted
    ensures r.None? ==> forall s :: s in studios && s.id == id ==> s.deleted
  {
    match FirstIndex(studios, (s: Studio) => s.id == id && !s.deleted)
    case None => None
    case Some(i) => Some(studios[i])
  }

  /** `studio.destroy()` on a paranoid table marks the row instead of removing it. */
  function SoftDelete(s: Studio): (r: Studio)
    ensures r.deleted && r.(deleted := s.deleted) == s
  {
    s.(deleted := true)
  }

  /** `Studio.findAvailable(startTime, endTime)`: the time arguments are not
      used; the result is every active studio that is not deleted. */
  function FindAvailable(studios: seq<Studio>, startTime: int, endTime: int): (r: seq<Studio>)
    ensures forall s :: s in r <==> s in studios && s.isActive && !s.deleted
    ensures forall s :: multiset(r)[s] == if s.isActive && !s.deleted then multiset(studios)[s] else 0
  {
    var keep := (s: Studio) => s.isActive && !s.deleted;
    FilterCounts(studios, keep);
    Filter(studios, keep)
  }

  /** The requested interval has no influence on the answer. */
  lemma FindAvailableIgnoresTimes(studios: seq<Studio>, t1: int, u1: int, t2: int, u2: int)
    ensures FindAvailable(studios, t1, u1) == FindAvailable(studios, t2, u2)
  {
  }
}
