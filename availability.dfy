/** `check_availability`: resolve the districts of one configuration, then
    query district by district, week 0 before week 1, and report the first
    response that holds a slot. The upstream query is the parameter `fetch`:
    the parsed center list for a district and a look-ahead week. */
module Availability {
  import opened VaxTypes
  import opened Aggregation
  import opened Reporting

  /** One upstream query: a district and a look-ahead week. */
  datatype Probe = Probe(district: District, week: nat)

  /** The outcome of one configuration's scan: the state is missing from the
      directory (the source's lookup raises), or the queries issued in order and
      the report composed, if any. */
  datatype Scan = UnknownState | Scanned(probes: seq<Probe>, report: Option<Report>)

  /** Look-ahead weeks queried per district: 0 and 1. */
  const Weeks: nat := 2

  /** The roster entries whose name is among `names`, in roster order. */
  function FilterByName(roster: seq<District>, names: seq<string>): seq<District> {
    if roster == [] then []
    else
      var d := roster[|roster| - 1];
      FilterByName(roster[..|roster| - 1], names) + (if d.name in names then [d] else [])
  }

  /** The districts to check: the whole roster when the configuration names
      none, otherwise the roster filtered to the named districts. */
  function SelectDistricts(roster: seq<District>, wanted: Option<seq<string>>): seq<District> {
    match wanted
    case None => roster
    case Some(names) => FilterByName(roster, names)
  }

  /** The queries of a full scan: every district in order, each for week 0 then week 1. */
  function AllProbes(ds: seq<District>): seq<Probe> {
    if ds == [] then []
    else
      var d := ds[|ds| - 1];
      AllProbes(ds[..|ds| - 1]) + [Probe(d, 0), Probe(d, 1)]
  }

  /** A query finds slots when its response holds an accepted session, that
      is, when its aggregate is non-empty (`BuildEmpty`). */
  predicate Hit(cfg: Config, fetch: (District, nat) -> seq<Center>, p: Probe) {
    AcceptedAll(cfg, fetch(p.district, p.week)) != []
  }

  /** The position of the first element satisfying `hit`, if any. */
  function FirstIndex<T>(ps: seq<T>, hit: T -> bool): (r: Option<nat>)
    ensures r.Some? ==> r.value < |ps| && hit(ps[r.value])
    ensures r.Some? ==> forall k :: 0 <= k < r.value ==> !hit(ps[k])
    ensures r.None? ==> forall k :: 0 <= k < |ps| ==> !hit(ps[k])
  {
    if ps == [] then None
    else if hit(ps[0]) then Some(0)
    else match FirstIndex(ps[1..], hit)
         case None => None
         case Some(k) => Some(k + 1)
  }

  /** The position of the first query that finds slots, if any. */
  function FirstHit(cfg: Config, fetch: (District, nat) -> seq<Center>, ps: seq<Probe>): Option<nat> {
    FirstIndex(ps, p => Hit(cfg, fetch, p))
  }

  /** The scan: a nested loop over the selected districts and the two weeks
      that returns at the first response holding slots, after composing its
      report. */
  method CheckAvailability(directory: map<string, seq<District>>, cfg: Config,
                           fetch: (District, nat) -> seq<Center>,
                           longDate: Date -> string, shortDate: Date -> string)
    returns (scan: Scan)
    ensures scan.UnknownState? <==> cfg.state !in directory
    ensures scan.Scanned? ==>
      var all := AllProbes(SelectDistricts(directory[cfg.state], cfg.districts));
      match FirstHit(cfg, fetch, all)
      case None => scan.probes == all && scan.report.None?
      case Some(k) =>
        && scan.probes == all[..k + 1]
        && scan.report.Some?
        && ReportsOn(Aggregate(cfg, fetch(all[k].district, all[k].week)), scan.report.value, cfg, longDate, shortDate)
  {
    if cfg.state !in directory {
      return UnknownState;
    }
    var districts := SelectDistricts(directory[cfg.state], cfg.districts);
    ghost var all := AllProbes(districts);
    AllProbesLength(districts);
    var probes: seq<Probe> := [];
    for i := 0 to |districts|
      invariant probes == all[..2 * i]
      invariant FirstHit(cfg, fetch, probes) == None
    {
      var d := districts[i];
      for week := 0 to Weeks
        invariant probes == all[..2 * i + week]
        invariant FirstHit(cfg, fetch, probes) == None
      {
        var found, table := CheckDistrict(fetch(d, week), cfg);
        NextProbe(districts, i, week);
        FoundIsHit(cfg, fetch, Probe(d, week), found, table);
        FirstHitSnoc(cfg, fetch, probes, Probe(d, week));
        probes := probes + [Probe(d, week)];
        if found {
          var report := ComposeReport(table, cfg, longDate, shortDate);
          ghost var k := 2 * i + week;
          FirstHitPrefix(cfg, fetch, all, k);
          ReportForProbe(cfg, fetch, all[k], table, report, longDate, shortDate);
          return Scanned(probes, Some(report));
        }
      }
    }
    assert probes == all;
    return Scanned(probes, None);
  }

  // ---------------------------------------------------------------------------
  // District selection

  /** A district is selected iff it is in the roster and its name is among the
      configured ones; configured names missing from the roster select nothing. */
  lemma {:induction false} FilterByNameMembership(roster: seq<District>, names: seq<string>, d: District)
    ensures d in FilterByName(roster, names) <==> d in roster && d.name in names
  {
    if roster != [] {
      var init := roster[..|roster| - 1];
      FilterByNameMembership(init, names, d);
      assert roster == init + [roster[|roster| - 1]];
    }
  }

  /** Selection keeps roster order: it distributes over concatenation, so a
      district earlier in the roster is earlier among the selected ones. */
  lemma {:induction false} FilterByNameAppend(a: seq<District>, b: seq<District>, names: seq<string>)
    ensures FilterByName(a + b, names) == FilterByName(a, names) + FilterByName(b, names)
    decreases |b|
  {
    if b == [] {
      assert a + b == a;
    } else {
      var b' := b[..|b| - 1];
      assert (a + b)[..|a + b| - 1] == a + b';
      FilterByNameAppend(a, b', names);
    }
  }

  /** Without configured names the whole roster is checked; with them, exactly
      the roster entries they name, in roster order. */
  lemma SelectDistrictsSpec(roster: seq<District>, wanted: Option<seq<string>>, d: District)
    ensures wanted.None? ==> SelectDistricts(roster, wanted) == roster
    ensures wanted.Some? ==> (d in SelectDistricts(roster, wanted) <==> d in roster && d.name in wanted.value)
    ensures |SelectDistricts(roster, wanted)| <= |roster|
  {
    if wanted.Some? {
      FilterByNameMembership(roster, wanted.value, d);
      FilterByNameLength(roster, wanted.value);
    }
  }

  lemma {:induction false} FilterByNameLength(roster: seq<District>, names: seq<string>)
    ensures |FilterByName(roster, names)| <= |roster|
  {
    if roster != [] {
      FilterByNameLength(roster[..|roster| - 1], names);
    }
  }

  // ---------------------------------------------------------------------------
  // The scan order

  /** The query order: position 2i is district i's week 0, position 2i+1 its week 1. */
  lemma {:induction false} AllProbesAt(ds: seq<District>)
    ensures |AllProbes(ds)| == 2 * |ds|
    ensures forall i, w :: 0 <= i < |ds| && 0 <= w < Weeks ==> AllProbes(ds)[2 * i + w] == Probe(ds[i], w)
  {
    if ds != [] {
      var init := ds[..|ds| - 1];
      AllProbesAt(init);
      var ps := AllProbes(ds);
      forall i, w | 0 <= i < |ds| && 0 <= w < Weeks ensures ps[2 * i + w] == Probe(ds[i], w) {
        if i < |init| {
          assert ds[i] == init[i];
        }
      }
    }
  }

  /** Only the length of the query order, for the scan's proof: calling
      `AllProbesAt` there puts its quantifier in the scan's context, which
      makes that proof much costlier. */
  lemma AllProbesLength(ds: seq<District>)
    ensures |AllProbes(ds)| == 2 * |ds|
  {
    AllProbesAt(ds);
  }

  /** The query after the first 2i+w ones is district i's week w. */
  lemma NextProbe(ds: seq<District>, i: nat, w: nat)
    requires i < |ds| && w < Weeks
    ensures 2 * i + w < |AllProbes(ds)|
    ensures AllProbes(ds)[2 * i + w] == Probe(ds[i], w)
    ensures AllProbes(ds)[..2 * i + w + 1] == AllProbes(ds)[..2 * i + w] + [Probe(ds[i], w)]
  {
    AllProbesAt(ds);
    var all := AllProbes(ds);
    assert all[2 * i + w] == Probe(ds[i], w);
    assert all[..2 * i + w + 1] == all[..2 * i + w] + [all[2 * i + w]];
  }

  /** The checker's flag for a query is `Hit` of that query. */
  lemma FoundIsHit(cfg: Config, fetch: (District, nat) -> seq<Center>, p: Probe, found: bool, table: DateTable)
    requires table == Aggregate(cfg, fetch(p.district, p.week))
    requires found <==> table != map[]
    ensures found <==> Hit(cfg, fetch, p)
  {
    BuildEmpty(AcceptedAll(cfg, fetch(p.district, p.week)));
  }

  /** Proof step of the scan, stated separately to keep the scan's proof
      small: the report composed from a query's table is the report on that
      query's aggregate. */
  lemma ReportForProbe(cfg: Config, fetch: (District, nat) -> seq<Center>, p: Probe, table: DateTable,
                       report: Report, longDate: Date -> string, shortDate: Date -> string)
    requires table == Aggregate(cfg, fetch(p.district, p.week))
    requires ReportsOn(table, report, cfg, longDate, shortDate)
    ensures ReportsOn(Aggregate(cfg, fetch(p.district, p.week)), report, cfg, longDate, shortDate)
  {
  }

  /** Issuing one more query: the first hit stays where it was, or is the new
      query when it is the first to find slots. */
  lemma FirstHitSnoc(cfg: Config, fetch: (District, nat) -> seq<Center>, ps: seq<Probe>, p: Probe)
    ensures FirstHit(cfg, fetch, ps + [p]) ==
            if FirstHit(cfg, fetch, ps).Some? then FirstHit(cfg, fetch, ps)
            else if Hit(cfg, fetch, p) then Some(|ps|)
            else None
  {
    var hit := FirstHit(cfg, fetch, ps);
    var hit' := FirstHit(cfg, fetch, ps + [p]);
    assert forall k :: 0 <= k < |ps| ==> (ps + [p])[k] == ps[k];
    assert (ps + [p])[|ps|] == p;
  }

  /** The first hit of a prefix that ends in a hit is the first hit of the
      whole query sequence: later queries cannot move it. */
  lemma FirstHitPrefix(cfg: Config, fetch: (District, nat) -> seq<Center>, ps: seq<Probe>, n: nat)
    requires n < |ps| && FirstHit(cfg, fetch, ps[..n + 1]) == Some(n)
    ensures FirstHit(cfg, fetch, ps) == Some(n)
  {
    assert forall k :: 0 <= k <= n ==> ps[..n + 1][k] == ps[k];
  }

  // ---------------------------------------------------------------------------
  // What a report says about the sessions behind it

  /** The slot total of a report is the summed capacity of the accepted
      sessions on the reported (earliest) date, and its detail fields are one
      per pincode entry of that date: later dates play no part. */
  lemma ReportedTotal(cfg: Config, centers: seq<Center>, r: Report, longDate: Date -> string, shortDate: Date -> string)
    requires var t := Aggregate(cfg, centers);
      && IsEarliest(r.date, t.Keys)
      && r == ReportOn(t[r.date], r.date, cfg, longDate, shortDate)
    ensures r.numSlots == SumCapacity(OnDate(AcceptedAll(cfg, centers), r.date))
    ensures |r.webhook.fields| == |Aggregate(cfg, centers)[r.date]|
    ensures forall i :: 0 <= i < |r.webhook.fields| ==>
      r.webhook.fields[i] == DetailField(Aggregate(cfg, centers)[r.date][i])
  {
    var t := Aggregate(cfg, centers);
    BuildDateTotal(AcceptedAll(cfg, centers), r.date);
    DetailFieldsPerPincode(t[r.date]);
  }
}
