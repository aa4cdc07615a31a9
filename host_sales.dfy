/**
 * The sales side of the host dashboard: per-party totals folded over the
 * party's active ticket tiers, the dashboard totals folded over the parties,
 * the upcoming/past split of the parties list and the automatic choice of
 * the party to scan for. Database reads are inputs: the host's parties in
 * query order (by date, ascending) and the rows of the ticket tier table.
 * Money is an integer amount in the smallest currency unit; dates are
 * integer timestamps.
 */
module HostSales {

  import opened Wrappers
  import opened JsValues
  import Schedule

  /** A party row (only the columns the dashboard logic reads). */
  datatype Party = Party(id: string, date: int)

  /** A ticket tier row; `quantity_sold` may be null. */
  datatype Tier = Tier(partyId: string, price: int, quantity: int, quantitySold: Option<int>, isActive: bool)

  /** A party row extended with the three totals computed from its tiers. */
  datatype PartyWithTiers = PartyWithTiers(party: Party, totalTickets: int, totalSold: int, totalRevenue: int)

  /** The dashboard figures other than the average rating. */
  datatype Analytics = Analytics(totalRevenue: int, totalTicketsSold: int, totalParties: int, upcomingParties: int)

  // ---------------------------------------------------------------------------
  // Folds
  // ---------------------------------------------------------------------------

  /** `xs.reduce((sum, x) => sum + f(x), acc)`: a left fold. */
  function Reduce<T>(xs: seq<T>, f: T -> int, acc: int): int
  {
    if xs == [] then acc else Reduce(xs[1..], f, acc + f(xs[0]))
  }

  /** The mathematical sum of `f` over `xs`. */
  function Sum<T>(xs: seq<T>, f: T -> int): int
  {
    if xs == [] then 0 else f(xs[0]) + Sum(xs[1..], f)
  }

  lemma {:induction false} ReduceIsSum<T>(xs: seq<T>, f: T -> int, acc: int)
    ensures Reduce(xs, f, acc) == acc + Sum(xs, f)
  {
    if xs != [] {
      ReduceIsSum(xs[1..], f, acc + f(xs[0]));
    }
  }

  lemma {:induction false} SumAppend<T>(a: seq<T>, b: seq<T>, f: T -> int)
    ensures Sum(a + b, f) == Sum(a, f) + Sum(b, f)
  {
    if a == [] {
      assert a + b == b;
    } else {
      assert (a + b)[1..] == a[1..] + b;
      SumAppend(a[1..], b, f);
    }
  }

  lemma {:induction false} SumNonNegative<T>(xs: seq<T>, f: T -> int)
    requires forall i :: 0 <= i < |xs| ==> f(xs[i]) >= 0
    ensures Sum(xs, f) >= 0
  {
    if xs != [] {
      SumNonNegative(xs[1..], f);
    }
  }

  lemma {:induction false} SumMonotone<T>(xs: seq<T>, f: T -> int, g: T -> int)
    requires forall i :: 0 <= i < |xs| ==> f(xs[i]) <= g(xs[i])
    ensures Sum(xs, f) <= Sum(xs, g)
  {
    if xs != [] {
      SumMonotone(xs[1..], f, g);
    }
  }

  // ---------------------------------------------------------------------------
  // Per-party totals
  // ---------------------------------------------------------------------------

  function Capacity(t: Tier): int { t.quantity }

  /** `t.quantity_sold || 0`. */
  function Sold(t: Tier): int { t.quantitySold.GetOr(0) }

  function TierRevenue(t: Tier): int { t.price * Sold(t) }

  /** The tier query: rows for this party whose active flag is set, in table order. */
  function TiersOf(party: Party, tiers: seq<Tier>): (r: seq<Tier>)
    ensures forall i :: 0 <= i < |r| ==> r[i].partyId == party.id && r[i].isActive
    ensures forall t :: t in r <==> t in tiers && t.partyId == party.id && t.isActive
  {
    if tiers == [] then []
    else (if tiers[0].partyId == party.id && tiers[0].isActive then [tiers[0]] else []) + TiersOf(party, tiers[1..])
  }

  function WithTiers(party: Party, tiers: seq<Tier>): PartyWithTiers
  {
    var ts := TiersOf(party, tiers);
    PartyWithTiers(party, Reduce(ts, Capacity, 0), Reduce(ts, Sold, 0), Reduce(ts, TierRevenue, 0))
  }

  /** `partiesData.map(...)`: every party extended with its totals, in the same order. */
  function PartiesWithTiers(parties: seq<Party>, tiers: seq<Tier>): (r: seq<PartyWithTiers>)
    ensures |r| == |parties|
    ensures forall i :: 0 <= i < |r| ==> r[i] == WithTiers(parties[i], tiers)
  {
    if parties == [] then [] else [WithTiers(parties[0], tiers)] + PartiesWithTiers(parties[1..], tiers)
  }

  /**
   * A party's totals are the sums of capacity, sold count (null as 0) and
   * price times sold count over its active tiers, and all three are 0 when it
   * has no active tier.
   */
  lemma PartyTotals(party: Party, tiers: seq<Tier>)
    ensures var w := WithTiers(party, tiers); var ts := TiersOf(party, tiers);
      w.party == party
      && w.totalTickets == Sum(ts, Capacity)
      && w.totalSold == Sum(ts, Sold)
      && w.totalRevenue == Sum(ts, TierRevenue)
      && (ts == [] ==> w.totalTickets == 0 && w.totalSold == 0 && w.totalRevenue == 0)
  {
    var ts := TiersOf(party, tiers);
    ReduceIsSum(ts, Capacity, 0);
    ReduceIsSum(ts, Sold, 0);
    ReduceIsSum(ts, TierRevenue, 0);
  }

  /** Tiers that are inactive or belong to another party do not change the totals. */
  lemma {:induction false} OtherTiersIgnored(party: Party, tiers: seq<Tier>, t: Tier)
    requires t.partyId != party.id || !t.isActive
    ensures WithTiers(party, tiers + [t]) == WithTiers(party, tiers)
  {
    TiersOfAppend(party, tiers, [t]);
    assert TiersOf(party, [t]) == [];
    assert TiersOf(party, tiers) + [] == TiersOf(party, tiers);
  }

  lemma {:induction false} TiersOfAppend(party: Party, a: seq<Tier>, b: seq<Tier>)
    ensures TiersOf(party, a + b) == TiersOf(party, a) + TiersOf(party, b)
  {
    if a == [] {
      assert a + b == b;
    } else {
      assert (a + b)[1..] == a[1..] + b;
      TiersOfAppend(party, a[1..], b);
    }
  }

  /** Well-formed tier rows: a non-negative price and `0 <= sold <= quantity`. */
  predicate TierInvariant(t: Tier) {
    t.price >= 0 && 0 <= Sold(t) <= t.quantity
  }

  /**
   * When every tier row keeps its sold count within its capacity, so does the
   * party: `0 <= total_sold <= total_tickets`, and revenue is not negative.
   */
  lemma PartyWithinCapacity(party: Party, tiers: seq<Tier>)
    requires forall i :: 0 <= i < |tiers| ==> TierInvariant(tiers[i])
    ensures var w := WithTiers(party, tiers);
      0 <= w.totalSold <= w.totalTickets && w.totalRevenue >= 0
  {
    var ts := TiersOf(party, tiers);
    PartyTotals(party, tiers);
    forall i | 0 <= i < |ts| ensures TierInvariant(ts[i]) {
      assert ts[i] in tiers;
    }
    SumMonotone(ts, Sold, Capacity);
    SumNonNegative(ts, Sold);
    forall i | 0 <= i < |ts| ensures TierRevenue(ts[i]) >= 0 {
      MulNonNegative(ts[i].price, Sold(ts[i]));
    }
    SumNonNegative(ts, TierRevenue);
  }

  lemma MulNonNegative(a: int, b: int)
    requires a >= 0 && b >= 0
    ensures a * b >= 0
  {
  }

  // ---------------------------------------------------------------------------
  // Dashboard
  // ---------------------------------------------------------------------------

  function PartyDate(p: PartyWithTiers): int { p.party.date }
  function PartyRevenue(p: PartyWithTiers): int { p.totalRevenue }
  function PartySold(p: PartyWithTiers): int { p.totalSold }
  function PartyCapacity(p: PartyWithTiers): int { p.totalTickets }

  function DashboardAnalytics(ps: seq<PartyWithTiers>, now: int): Analytics
  {
    Analytics(
      Reduce(ps, PartyRevenue, 0),
      Reduce(ps, PartySold, 0),
      |ps|,
      |Schedule.Upcoming(ps, PartyDate, now)|)
  }

  /**
   * The dashboard revenue and tickets sold are the sums of the per-party
   * totals, the party count is the number of parties, and the upcoming count
   * plus the number of past parties is that count.
   */
  lemma AnalyticsTotals(ps: seq<PartyWithTiers>, now: int)
    ensures var a := DashboardAnalytics(ps, now);
      a.totalRevenue == Sum(ps, PartyRevenue)
      && a.totalTicketsSold == Sum(ps, PartySold)
      && a.totalParties == |ps|
      && a.upcomingParties + |Schedule.Past(ps, PartyDate, now)| == a.totalParties
  {
    ReduceIsSum(ps, PartyRevenue, 0);
    ReduceIsSum(ps, PartySold, 0);
    Schedule.SplitPartitions(ps, PartyDate, now);
  }

  /**
   * Over well-formed tier rows, the dashboard never reports more tickets sold
   * than the capacity of all the host's active tiers.
   */
  lemma {:induction false} DashboardWithinCapacity(parties: seq<Party>, tiers: seq<Tier>, now: int)
    requires forall i :: 0 <= i < |tiers| ==> TierInvariant(tiers[i])
    ensures var ps := PartiesWithTiers(parties, tiers); var a := DashboardAnalytics(ps, now);
      0 <= a.totalTicketsSold <= Sum(ps, PartyCapacity) && a.totalRevenue >= 0
  {
    var ps := PartiesWithTiers(parties, tiers);
    AnalyticsTotals(ps, now);
    forall i | 0 <= i < |ps| ensures 0 <= PartySold(ps[i]) <= PartyCapacity(ps[i]) && PartyRevenue(ps[i]) >= 0 {
      PartyWithinCapacity(parties[i], tiers);
    }
    SumMonotone(ps, PartySold, PartyCapacity);
    SumNonNegative(ps, PartySold);
    SumNonNegative(ps, PartyRevenue);
  }

  // ---------------------------------------------------------------------------
  // Parties tab and scanner auto-selection
  // ---------------------------------------------------------------------------

  /** The two lists of the parties tab. */
  function PartiesTab(ps: seq<PartyWithTiers>, now: int): Schedule.Split<PartyWithTiers>
  {
    Schedule.SplitAt(ps, PartyDate, now)
  }

  /** The first upcoming party becomes the scanner's party unless one is already selected. */
  function AutoSelection(ps: seq<PartyWithTiers>, now: int, selected: Option<string>): Option<string>
  {
    var upcoming := Schedule.Upcoming(ps, PartyDate, now);
    if |upcoming| > 0 && !Truthy(selected) then Some(upcoming[0].party.id) else selected
  }

  /**
   * An existing selection is kept; otherwise the selection becomes the first
   * party in list order whose date has not passed, and stays as it was when
   * every party is past.
   */
  lemma AutoSelectionRule(ps: seq<PartyWithTiers>, now: int, selected: Option<string>)
    ensures Truthy(selected) ==> AutoSelection(ps, now, selected) == selected
    ensures !Truthy(selected) && (forall j :: 0 <= j < |ps| ==> ps[j].party.date < now)
      ==> AutoSelection(ps, now, selected) == selected
    ensures !Truthy(selected) && (exists j :: 0 <= j < |ps| && ps[j].party.date >= now) ==>
      exists i :: 0 <= i < |ps| && AutoSelection(ps, now, selected) == Some(ps[i].party.id)
        && ps[i].party.date >= now && forall j :: 0 <= j < i ==> ps[j].party.date < now
  {
    Schedule.UpcomingHead(ps, PartyDate, now);
  }

  /** The upcoming and past tab lists partition the parties. */
  lemma PartiesTabPartitions(ps: seq<PartyWithTiers>, now: int)
    ensures var s := PartiesTab(ps, now);
      multiset(s.upcoming) + multiset(s.past) == multiset(ps)
      && (forall p :: p in s.upcoming <==> p in ps && p.party.date >= now)
      && (forall p :: p in s.past <==> p in ps && p.party.date < now)
  {
    Schedule.SplitPartitions(ps, PartyDate, now);
  }
}
