/** `check_district`: filter the sessions of one upstream response and fold the
    accepted ones into the per-date, per-pincode aggregate. */
module Aggregation {
  import opened VaxTypes

  /** An accepted session, flattened out of its center. */
  datatype Contribution = Contribution(date: Date, pincode: int, center: string, capacity: int)

  /** The optional, inclusive pincode bounds of the configuration. */
  predicate InPincodeRange(cfg: Config, pincode: int) {
    && (cfg.minPincode.None? || cfg.minPincode.value <= pincode)
    && (cfg.maxPincode.None? || pincode <= cfg.maxPincode.value)
  }

  /** The session filter: age tier, non-zero capacity, pincode bounds. */
  predicate Accepts(cfg: Config, c: Center, s: Session) {
    && s.minAgeLimit <= AgeLimit(cfg)
    && s.availableCapacity != 0
    && InPincodeRange(cfg, c.pincode)
  }

  function Contribute(c: Center, s: Session): Contribution {
    Contribution(s.date, c.pincode, c.name, s.availableCapacity)
  }

  /** The accepted sessions among `ss` (sessions of center `c`), in order. */
  function AcceptedIn(cfg: Config, c: Center, ss: seq<Session>): seq<Contribution> {
    if ss == [] then []
    else
      var s := ss[|ss| - 1];
      AcceptedIn(cfg, c, ss[..|ss| - 1]) + (if Accepts(cfg, c, s) then [Contribute(c, s)] else [])
  }

  /** The accepted sessions of all centers, in encounter order (center by
      center, session by session). */
  function AcceptedAll(cfg: Config, cs: seq<Center>): seq<Contribution> {
    if cs == [] then []
    else
      var c := cs[|cs| - 1];
      AcceptedAll(cfg, cs[..|cs| - 1]) + AcceptedIn(cfg, c, c.sessions)
  }

  /** The slots recorded for pincode `p` in one date's entries. */
  function Find(es: seq<Entry>, p: int): Option<Slots> {
    if es == [] then None
    else if es[0].pincode == p then Some(es[0].slots)
    else Find(es[1..], p)
  }

  /** Add `cap` to pincode `p`'s capacity and append `name` to its centers;
      a pincode seen for the first time is appended at the end. */
  function Upsert(es: seq<Entry>, p: int, cap: int, name: string): seq<Entry> {
    if es == [] then [Entry(p, Slots(cap, [name]))]
    else if es[0].pincode == p then
      [Entry(p, Slots(es[0].slots.availableCapacity + cap, es[0].slots.centers + [name]))] + es[1..]
    else [es[0]] + Upsert(es[1..], p, cap, name)
  }

  /** The single update the checker applies per accepted session. */
  function AddTo(t: DateTable, x: Contribution): DateTable {
    var es := if x.date in t then t[x.date] else [];
    t[x.date := Upsert(es, x.pincode, x.capacity, x.center)]
  }

  /** Folding the contributions, first to last, into an empty table. */
  function Build(xs: seq<Contribution>): DateTable {
    if xs == [] then map[] else AddTo(Build(xs[..|xs| - 1]), xs[|xs| - 1])
  }

  /** What `check_district` returns as its dictionary, for a parsed response. */
  function Aggregate(cfg: Config, centers: seq<Center>): DateTable {
    Build(AcceptedAll(cfg, centers))
  }

  function Lookup(t: DateTable, d: Date, p: int): Option<Slots> {
    if d in t then Find(t[d], p) else None
  }

  /** The contributions that fall on date `d` and pincode `p`, in order. */
  function Matching(xs: seq<Contribution>, d: Date, p: int): seq<Contribution> {
    if xs == [] then []
    else
      var x := xs[|xs| - 1];
      Matching(xs[..|xs| - 1], d, p) + (if x.date == d && x.pincode == p then [x] else [])
  }

  /** The contributions that fall on date `d`, in order. */
  function OnDate(xs: seq<Contribution>, d: Date): seq<Contribution> {
    if xs == [] then []
    else
      var x := xs[|xs| - 1];
      OnDate(xs[..|xs| - 1], d) + (if x.date == d then [x] else [])
  }

  function SumCapacity(xs: seq<Contribution>): int {
    if xs == [] then 0 else SumCapacity(xs[..|xs| - 1]) + xs[|xs| - 1].capacity
  }

  function CenterNames(xs: seq<Contribution>): seq<string> {
    if xs == [] then [] else CenterNames(xs[..|xs| - 1]) + [xs[|xs| - 1].center]
  }

  /** The checker: a double loop over centers and sessions with the four
      `continue` filters, folding every accepted session into the table. */
  method CheckDistrict(centers: seq<Center>, cfg: Config) returns (found: bool, table: DateTable)
    ensures table == Aggregate(cfg, centers)
    ensures found <==> table != map[]
    ensures WellFormed(table)
  {
    var limit := AgeLimit(cfg);
    table := map[];
    found := false;
    ghost var acc: seq<Contribution> := [];
    assert centers[..0] == [];
    for i := 0 to |centers|
      invariant acc == AcceptedAll(cfg, centers[..i])
      invariant table == Build(acc)
      invariant found <==> acc != []
    {
      var center := centers[i];
      ghost var before := acc;
      assert center.sessions[..0] == [];
      assert before + [] == before;
      for j := 0 to |center.sessions|
        invariant acc == before + AcceptedIn(cfg, center, center.sessions[..j])
        invariant table == Build(acc)
        invariant found <==> acc != []
      {
        var session := center.sessions[j];
        ghost var done := AcceptedIn(cfg, center, center.sessions[..j]);
        AcceptedInStep(cfg, center, center.sessions, j);
        assert done + [] == done;
        if session.minAgeLimit > limit {
          continue;
        }
        if session.availableCapacity == 0 {
          continue;
        }
        if cfg.minPincode.Some? && center.pincode < cfg.minPincode.value {
          continue;
        }
        if cfg.maxPincode.Some? && center.pincode > cfg.maxPincode.value {
          continue;
        }
        found := true;
        var x := Contribution(session.date, center.pincode, center.name, session.availableCapacity);
        table := AddTo(table, x);
        BuildSnoc(acc, x);
        SnocAssoc(before, done, x);
        acc := acc + [x];
      }
      AcceptedAllStep(cfg, centers, i);
    }
    assert centers[..|centers|] == centers;
    BuildEmpty(AcceptedAll(cfg, centers));
    BuildWellFormed(AcceptedAll(cfg, centers));
  }

  lemma AcceptedInStep(cfg: Config, c: Center, ss: seq<Session>, j: nat)
    requires j < |ss|
    ensures AcceptedIn(cfg, c, ss[..j + 1]) ==
            AcceptedIn(cfg, c, ss[..j]) + (if Accepts(cfg, c, ss[j]) then [Contribute(c, ss[j])] else [])
  {
    assert ss[..j + 1][..j] == ss[..j];
  }

  lemma AcceptedAllStep(cfg: Config, cs: seq<Center>, i: nat)
    requires i < |cs|
    ensures AcceptedAll(cfg, cs[..i + 1]) == AcceptedAll(cfg, cs[..i]) + AcceptedIn(cfg, cs[i], cs[i].sessions[..|cs[i].sessions|])
  {
    assert cs[..i + 1][..i] == cs[..i];
    assert cs[i].sessions[..|cs[i].sessions|] == cs[i].sessions;
  }

  /** Proof step of the checker, stated separately to keep its proof small. */
  lemma SnocAssoc<T>(a: seq<T>, b: seq<T>, x: T)
    ensures a + (b + [x]) == (a + b) + [x]
  {
  }

  lemma BuildSnoc(xs: seq<Contribution>, x: Contribution)
    ensures Build(xs + [x]) == AddTo(Build(xs), x)
  {
    assert (xs + [x])[..|xs|] == xs;
  }

  // ---------------------------------------------------------------------------
  // The filter

  /** Which sessions reach the aggregate: exactly the accepted ones, each once
      for every (center, session) position that holds it. */
  lemma {:induction false} AcceptedInMembership(cfg: Config, c: Center, ss: seq<Session>, x: Contribution)
    ensures x in AcceptedIn(cfg, c, ss) <==>
            exists j :: 0 <= j < |ss| && Accepts(cfg, c, ss[j]) && x == Contribute(c, ss[j])
  {
    if ss != [] {
      var init := ss[..|ss| - 1];
      AcceptedInMembership(cfg, c, init, x);
      if x in AcceptedIn(cfg, c, init) {
        var j :| 0 <= j < |init| && Accepts(cfg, c, init[j]) && x == Contribute(c, init[j]);
        assert ss[j] == init[j];
      }
      if exists j :: 0 <= j < |ss| && Accepts(cfg, c, ss[j]) && x == Contribute(c, ss[j]) {
        var j :| 0 <= j < |ss| && Accepts(cfg, c, ss[j]) && x == Contribute(c, ss[j]);
        if j < |init| {
          assert init[j] == ss[j];
        }
      }
    }
  }

  /** A session contributes iff it passes the filter: every contribution comes
      from an accepted session of some center, and every accepted session of
      every center contributes. */
  lemma {:induction false} AcceptedAllMembership(cfg: Config, cs: seq<Center>, x: Contribution)
    ensures x in AcceptedAll(cfg, cs) <==>
            exists i, j :: 0 <= i < |cs| && 0 <= j < |cs[i].sessions| &&
                           Accepts(cfg, cs[i], cs[i].sessions[j]) && x == Contribute(cs[i], cs[i].sessions[j])
  {
    if cs != [] {
      var init := cs[..|cs| - 1];
      var c := cs[|cs| - 1];
      AcceptedAllMembership(cfg, init, x);
      AcceptedInMembership(cfg, c, c.sessions, x);
      if x in AcceptedAll(cfg, cs) {
        if x in AcceptedAll(cfg, init) {
          var i, j :| 0 <= i < |init| && 0 <= j < |init[i].sessions| &&
                      Accepts(cfg, init[i], init[i].sessions[j]) && x == Contribute(init[i], init[i].sessions[j]);
          assert cs[i] == init[i];
        } else {
          var j :| 0 <= j < |c.sessions| && Accepts(cfg, c, c.sessions[j]) && x == Contribute(c, c.sessions[j]);
          assert cs[|cs| - 1] == c;
        }
      }
      if exists i, j :: 0 <= i < |cs| && 0 <= j < |cs[i].sessions| &&
                        Accepts(cfg, cs[i], cs[i].sessions[j]) && x == Contribute(cs[i], cs[i].sessions[j]) {
        var i, j :| 0 <= i < |cs| && 0 <= j < |cs[i].sessions| &&
                    Accepts(cfg, cs[i], cs[i].sessions[j]) && x == Contribute(cs[i], cs[i].sessions[j]);
        if i < |init| {
          assert init[i] == cs[i];
        }
      }
    }
  }

  /** The bounds are inclusive and optional: a center sitting exactly on a
      configured bound passes, one step outside it does not, and an absent
      bound lets every pincode through on that side. */
  lemma PincodeBoundsInclusive(cfg: Config, p: int)
    ensures cfg.minPincode == Some(p) && (cfg.maxPincode.None? || p <= cfg.maxPincode.value) ==> InPincodeRange(cfg, p)
    ensures cfg.maxPincode == Some(p) && (cfg.minPincode.None? || cfg.minPincode.value <= p) ==> InPincodeRange(cfg, p)
    ensures cfg.minPincode == Some(p + 1) ==> !InPincodeRange(cfg, p)
    ensures cfg.maxPincode == Some(p - 1) ==> !InPincodeRange(cfg, p)
    ensures cfg.minPincode.None? && cfg.maxPincode.None? ==> InPincodeRange(cfg, p)
  {
  }

  /** Rejected sessions have no influence at all: dropping every session the
      filter rejects leaves the aggregate unchanged, whatever their capacity. */
  function KeepAccepted(cfg: Config, ss: seq<Session>, c: Center): (r: seq<Session>)
    ensures forall s :: s in r ==> Accepts(cfg, c, s)
  {
    if ss == [] then []
    else
      var s := ss[|ss| - 1];
      KeepAccepted(cfg, ss[..|ss| - 1], c) + (if Accepts(cfg, c, s) then [s] else [])
  }

  function Pruned(cfg: Config, cs: seq<Center>): (r: seq<Center>)
    ensures |r| == |cs|
  {
    if cs == [] then []
    else
      var c := cs[|cs| - 1];
      Pruned(cfg, cs[..|cs| - 1]) + [Center(c.pincode, c.name, KeepAccepted(cfg, c.sessions, c))]
  }

  lemma {:induction false} AcceptedInPruned(cfg: Config, c: Center, ss: seq<Session>, c': Center)
    requires c'.pincode == c.pincode && c'.name == c.name
    ensures AcceptedIn(cfg, c', KeepAccepted(cfg, ss, c)) == AcceptedIn(cfg, c, ss)
  {
    if ss != [] {
      var init := ss[..|ss| - 1];
      var s := ss[|ss| - 1];
      var k := KeepAccepted(cfg, init, c);
      AcceptedInPruned(cfg, c, init, c');
      if Accepts(cfg, c, s) {
        assert (k + [s])[..|k|] == k;
      } else {
        assert k + [] == k;
      }
    }
  }

  lemma {:induction false} RejectedSessionsIgnored(cfg: Config, cs: seq<Center>)
    ensures Aggregate(cfg, Pruned(cfg, cs)) == Aggregate(cfg, cs)
  {
    AcceptedAllPruned(cfg, cs);
  }

  lemma {:induction false} AcceptedAllPruned(cfg: Config, cs: seq<Center>)
    ensures AcceptedAll(cfg, Pruned(cfg, cs)) == AcceptedAll(cfg, cs)
  {
    if cs != [] {
      var init := cs[..|cs| - 1];
      var c := cs[|cs| - 1];
      var p := Pruned(cfg, cs);
      var c' := Center(c.pincode, c.name, KeepAccepted(cfg, c.sessions, c));
      assert p[..|p| - 1] == Pruned(cfg, init);
      assert p[|p| - 1] == c';
      AcceptedAllPruned(cfg, init);
      AcceptedInPruned(cfg, c, c.sessions, c');
    }
  }

  // ---------------------------------------------------------------------------
  // The update of one pincode entry

  lemma {:induction false} FindUpsert(es: seq<Entry>, p: int, cap: int, name: string, q: int)
    ensures Find(Upsert(es, p, cap, name), q) ==
            if q != p then Find(es, q)
            else match Find(es, p)
                 case None => Some(Slots(cap, [name]))
                 case Some(s) => Some(Slots(s.availableCapacity + cap, s.centers + [name]))
  {
    if es != [] && es[0].pincode != p {
      FindUpsert(es[1..], p, cap, name, q);
      assert Upsert(es, p, cap, name)[1..] == Upsert(es[1..], p, cap, name);
    }
  }

  /** `Find` misses exactly the pincodes no entry carries. */
  lemma {:induction false} FindNone(es: seq<Entry>, q: int)
    ensures Find(es, q).None? <==> forall i :: 0 <= i < |es| ==> es[i].pincode != q
  {
    if es != [] {
      FindNone(es[1..], q);
      assert forall i :: 0 < i < |es| ==> es[i] == es[1..][i - 1];
    }
  }

  lemma {:induction false} UpsertWellFormed(es: seq<Entry>, p: int, cap: int, name: string)
    requires DistinctPincodes(es)
    requires forall i :: 0 <= i < |es| ==> es[i].slots.centers != []
    ensures var u := Upsert(es, p, cap, name);
      && u != []
      && DistinctPincodes(u)
      && (forall i :: 0 <= i < |u| ==> u[i].slots.centers != [])
  {
    var u := Upsert(es, p, cap, name);
    if es != [] && es[0].pincode != p {
      var rest := es[1..];
      UpsertWellFormed(rest, p, cap, name);
      var u' := Upsert(rest, p, cap, name);
      assert u == [es[0]] + u';
      var q := es[0].pincode;
      assert forall i :: 0 <= i < |rest| ==> rest[i] == es[i + 1];
      FindNone(rest, q);
      FindUpsert(rest, p, cap, name, q);
      FindNone(u', q);
      assert forall i :: 0 < i < |u| ==> u[i] == u'[i - 1];
    }
  }

  /** The order of a date's pincodes (the order the report lists them in):
      a new pincode is appended after the existing ones, and an update of an
      existing pincode keeps every pincode in its position. */
  lemma {:induction false} UpsertOrder(es: seq<Entry>, p: int, cap: int, name: string)
    ensures Find(es, p).None? ==> Upsert(es, p, cap, name) == es + [Entry(p, Slots(cap, [name]))]
    ensures Find(es, p).Some? ==>
      var u := Upsert(es, p, cap, name);
      |u| == |es| && forall i :: 0 <= i < |es| ==> u[i].pincode == es[i].pincode
  {
    if es != [] && es[0].pincode != p {
      var rest := es[1..];
      UpsertOrder(rest, p, cap, name);
      var u := Upsert(es, p, cap, name);
      assert u == [es[0]] + Upsert(rest, p, cap, name);
      if Find(es, p).None? {
        assert es == [es[0]] + rest;
      } else {
        assert forall i :: 0 < i < |es| ==> u[i] == Upsert(rest, p, cap, name)[i - 1] && es[i] == rest[i - 1];
      }
    }
  }

  lemma {:induction false} TotalCapacityUpsert(es: seq<Entry>, p: int, cap: int, name: string)
    ensures TotalCapacity(Upsert(es, p, cap, name)) == TotalCapacity(es) + cap
  {
    if es != [] {
      var e := es[0];
      var rest := es[1..];
      assert es == [e] + rest;
      TotalCapacityAppend([e], rest);
      assert TotalCapacity([e]) == e.slots.availableCapacity by {
        assert [e][..0] == [];
      }
      if e.pincode == p {
        var e' := Entry(p, Slots(e.slots.availableCapacity + cap, e.slots.centers + [name]));
        TotalCapacityAppend([e'], rest);
        assert TotalCapacity([e']) == e'.slots.availableCapacity by {
          assert [e'][..0] == [];
        }
      } else {
        TotalCapacityUpsert(rest, p, cap, name);
        TotalCapacityAppend([e], Upsert(rest, p, cap, name));
      }
    } else {
      var u := Upsert(es, p, cap, name);
      assert u[..0] == [];
    }
  }

  // ---------------------------------------------------------------------------
  // What the fold builds

  /** `slots_found` agrees with the table: the table is empty iff no session
      was accepted. */
  lemma BuildEmpty(xs: seq<Contribution>)
    ensures Build(xs) == map[] <==> xs == []
  {
    if xs != [] {
      assert xs[|xs| - 1].date in Build(xs);
    }
  }

  /** Every date entry has a pincode entry, pincodes are distinct and every
      pincode entry lists at least one center. */
  lemma {:induction false} BuildWellFormed(xs: seq<Contribution>)
    ensures WellFormed(Build(xs))
  {
    if xs != [] {
      var t := Build(xs[..|xs| - 1]);
      var x := xs[|xs| - 1];
      BuildWellFormed(xs[..|xs| - 1]);
      var es := if x.date in t then t[x.date] else [];
      UpsertWellFormed(es, x.pincode, x.capacity, x.center);
    }
  }

  /** A date appears in the table iff some accepted session falls on it. */
  lemma {:induction false} BuildDates(xs: seq<Contribution>, d: Date)
    ensures d in Build(xs) <==> OnDate(xs, d) != []
  {
    if xs != [] {
      BuildDates(xs[..|xs| - 1], d);
    }
  }

  /** One update of the table, seen through `Lookup`: only the updated
      (date, pincode) pair changes, gaining the capacity and the center. */
  lemma LookupAddTo(t: DateTable, x: Contribution, d: Date, p: int)
    ensures Lookup(AddTo(t, x), d, p) ==
            if x.date != d || x.pincode != p then Lookup(t, d, p)
            else match Lookup(t, d, p)
                 case None => Some(Slots(x.capacity, [x.center]))
                 case Some(s) => Some(Slots(s.availableCapacity + x.capacity, s.centers + [x.center]))
  {
    var es := if x.date in t then t[x.date] else [];
    FindUpsert(es, x.pincode, x.capacity, x.center, p);
  }

  lemma MatchingLast(xs: seq<Contribution>, d: Date, p: int)
    requires xs != []
    ensures var x := xs[|xs| - 1];
      var m := Matching(xs[..|xs| - 1], d, p);
      && (x.date == d && x.pincode == p ==>
            && Matching(xs, d, p) == m + [x]
            && SumCapacity(m + [x]) == SumCapacity(m) + x.capacity
            && CenterNames(m + [x]) == CenterNames(m) + [x.center])
      && (x.date != d || x.pincode != p ==> Matching(xs, d, p) == m)
  {
    var x := xs[|xs| - 1];
    var m := Matching(xs[..|xs| - 1], d, p);
    assert (m + [x])[..|m|] == m;
    assert m + [] == m;
  }

  /** Each (date, pincode) entry holds the sum of the capacities of the accepted
      sessions with that date and pincode, and their center names in encounter
      order, one per session; a pair no accepted session falls on has no entry. */
  lemma {:induction false} BuildLookup(xs: seq<Contribution>, d: Date, p: int)
    ensures Lookup(Build(xs), d, p) ==
            if Matching(xs, d, p) == [] then None
            else Some(Slots(SumCapacity(Matching(xs, d, p)), CenterNames(Matching(xs, d, p))))
  {
    if xs != [] {
      var init := xs[..|xs| - 1];
      var x := xs[|xs| - 1];
      BuildLookup(init, d, p);
      LookupAddTo(Build(init), x, d, p);
      MatchingLast(xs, d, p);
      var m := Matching(init, d, p);
      if x.date == d && x.pincode == p && m == [] {
        assert CenterNames(m) + [x.center] == [x.center];
      }
    }
  }

  /** The total capacity of a date's entries is the sum of the capacities of
      all accepted sessions on that date. */
  lemma {:induction false} BuildDateTotal(xs: seq<Contribution>, d: Date)
    requires d in Build(xs)
    ensures TotalCapacity(Build(xs)[d]) == SumCapacity(OnDate(xs, d))
  {
    var init := xs[..|xs| - 1];
    var x := xs[|xs| - 1];
    var t := Build(init);
    var o := OnDate(init, d);
    if x.date == d {
      var es := if d in t then t[d] else [];
      TotalCapacityUpsert(es, x.pincode, x.capacity, x.center);
      if d in t {
        BuildDateTotal(init, d);
      } else {
        BuildDates(init, d);
      }
      assert OnDate(xs, d) == o + [x];
      assert (o + [x])[..|o|] == o;
    } else {
      BuildDateTotal(init, d);
      assert OnDate(xs, d) == o + [];
      assert o + [] == o;
    }
  }

  /** A lone accepted session with a single seat is kept: one center, one
      session of capacity 1 gives a one-date, one-pincode aggregate holding
      that seat, so the checker's flag is set and it is reported. */
  lemma SingleSeatKept(cfg: Config, c: Center)
    requires |c.sessions| == 1 && c.sessions[0].availableCapacity == 1
    requires Accepts(cfg, c, c.sessions[0])
    ensures Aggregate(cfg, [c]) == map[c.sessions[0].date := [Entry(c.pincode, Slots(1, [c.name]))]]
    ensures Aggregate(cfg, [c]) != map[]
  {
    var x := Contribute(c, c.sessions[0]);
    AcceptedLone(cfg, c);
    BuildLone(x);
    assert c.sessions[0].date in Aggregate(cfg, [c]);
  }

  lemma AcceptedLone(cfg: Config, c: Center)
    requires |c.sessions| == 1 && Accepts(cfg, c, c.sessions[0])
    ensures AcceptedAll(cfg, [c]) == [Contribute(c, c.sessions[0])]
  {
    var x := Contribute(c, c.sessions[0]);
    assert [c][..0] == [];
    assert c.sessions[..0] == [];
    assert AcceptedIn(cfg, c, c.sessions) == [] + [x];
    assert AcceptedAll(cfg, [c]) == [] + AcceptedIn(cfg, c, c.sessions);
  }

  lemma BuildLone(x: Contribution)
    ensures Build([x]) == map[x.date := [Entry(x.pincode, Slots(x.capacity, [x.center]))]]
  {
    assert [x][..0] == [];
    assert Build([x]) == AddTo(map[], x);
    assert Upsert([], x.pincode, x.capacity, x.center) == [Entry(x.pincode, Slots(x.capacity, [x.center]))];
  }
}
