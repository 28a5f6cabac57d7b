/** The values the vaccine-slot notifier works on: the parsed upstream response
    (centers and their sessions), one target configuration, the district roster
    and the per-date, per-pincode slot aggregate. */
module VaxTypes {

  datatype Option<+T> = None | Some(value: T) {
    /** The wrapped value, or `default` when absent (Python's `dict.get(key, default)`). */
    function GetOr(default: T): T {
      match this
      case Some(v) => v
      case None => default
    }
  }

  /** A calendar day. The upstream gives it as day-month-year text; parsing and
      formatting are outside the model, only the order of days matters. */
  datatype Date = Date(year: int, month: int, day: int)

  /** Chronological order of days: year first, then month, then day. */
  predicate NotAfter(a: Date, b: Date) {
    a.year < b.year ||
    (a.year == b.year && (a.month < b.month || (a.month == b.month && a.day <= b.day)))
  }

  /** One appointment block of a center, as listed in the upstream response. */
  datatype Session = Session(date: Date, minAgeLimit: int, availableCapacity: int)

  /** A vaccination center of the upstream response with its sessions. */
  datatype Center = Center(pincode: int, name: string, sessions: seq<Session>)

  /** A roster entry of a state: district name and the upstream's district id. */
  datatype District = District(name: string, id: int)

  /** One target configuration. Optional keys of the source's config dictionaries
      are `Option`s; `name` and `state` are always present. */
  datatype Config = Config(
    name: string,
    state: string,
    districts: Option<seq<string>>,
    alertChannel: Option<string>,
    minAgeLimit: Option<int>,
    minPincode: Option<int>,
    maxPincode: Option<int>,
    postToTwitter: Option<bool>)

  const DefaultAgeLimit: int := 18

  /** The configured age limit, 18 when the configuration does not set one. */
  function AgeLimit(cfg: Config): (r: int)
    ensures cfg.minAgeLimit.None? ==> r == DefaultAgeLimit
    ensures cfg.minAgeLimit.Some? ==> r == cfg.minAgeLimit.value
  {
    cfg.minAgeLimit.GetOr(DefaultAgeLimit)
  }

  /** The accumulated slots of one pincode on one date: summed capacity and the
      names of the contributing centers, one per accepted session. */
  datatype Slots = Slots(availableCapacity: int, centers: seq<string>)

  /** One pincode entry of a date's table. */
  datatype Entry = Entry(pincode: int, slots: Slots)

  /** The aggregate: for every date, its pincode entries in insertion order
      (the source's inner dictionary, whose iteration order is insertion order). */
  type DateTable = map<Date, seq<Entry>>

  /** Sum of the capacities of a date's pincode entries. */
  function TotalCapacity(es: seq<Entry>): int {
    if es == [] then 0 else TotalCapacity(es[..|es| - 1]) + es[|es| - 1].slots.availableCapacity
  }

  lemma {:induction false} TotalCapacityAppend(a: seq<Entry>, b: seq<Entry>)
    ensures TotalCapacity(a + b) == TotalCapacity(a) + TotalCapacity(b)
    decreases |b|
  {
    if b == [] {
      assert a + b == a;
    } else {
      var b' := b[..|b| - 1];
      assert (a + b)[..|a + b| - 1] == a + b';
      TotalCapacityAppend(a, b');
    }
  }

  /** Distinct pincodes within one date's entries (they are dictionary keys). */
  predicate DistinctPincodes(es: seq<Entry>) {
    forall i, j :: 0 <= i < j < |es| ==> es[i].pincode != es[j].pincode
  }

  /** The shape every aggregate built by the checker has: no empty date entry,
      distinct pincodes per date, and at least one center per pincode entry. */
  predicate WellFormed(t: DateTable) {
    forall d :: d in t ==>
      && t[d] != []
      && DistinctPincodes(t[d])
      && (forall i :: 0 <= i < |t[d]| ==> t[d][i].slots.centers != [])
  }

  /** `f` applied to every element, in order. */
  function MapSeq<A, B>(xs: seq<A>, f: A -> B): seq<B> {
    if xs == [] then [] else MapSeq(xs[..|xs| - 1], f) + [f(xs[|xs| - 1])]
  }

  lemma {:induction false} MapSeqAt<A, B>(xs: seq<A>, f: A -> B)
    ensures |MapSeq(xs, f)| == |xs|
    ensures forall i :: 0 <= i < |xs| ==> MapSeq(xs, f)[i] == f(xs[i])
  {
    if xs != [] {
      var init := xs[..|xs| - 1];
      MapSeqAt(init, f);
      assert forall i :: 0 <= i < |init| ==> xs[i] == init[i];
    }
  }
}
