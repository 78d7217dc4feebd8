/**
 * The pricing engine: from the four selections and the daily rate (TJM)
 * to a priced quotation, or to nothing while the input is incomplete.
 * Amounts are exact reals.
 */
module Pricing {
  import opened Wrappers
  import opened Catalog

  /**
   * The form's fields. `None` stands for the empty string the form holds
   * before a choice is made; `tjm` is the daily rate read as a number.
   */
  datatype Selection = Selection(
    formation: Option<FormationId>,
    mode: Option<Mode>,
    sessions: Option<nat>,
    travelZone: Option<ZoneId>,
    tjm: real)

  /** The priced quotation, with the selection echoed as display text. */
  datatype Quote = Quote(
    formation: string,
    mode: string,
    sessions: nat,
    travelZone: string,
    travelCost: real,
    tjm: real,
    totalHT: real,
    totalDays: real,
    tva: real,
    totalTTC: real)

  const VatRate: real := 0.20

  /** Math.ceil on a real. */
  function Ceil(x: real): (c: int)
    ensures x <= c as real < x + 1.0
  {
    -((-x).Floor)
  }

  predicate IsWhole(x: real)
  {
    x == x.Floor as real
  }

  /** A selection the engine declines to price. */
  predicate Incomplete(sel: Selection)
  {
    || sel.formation.None?
    || sel.mode.None?
    || sel.sessions.None?
    || (sel.mode == Some(Presentiel) && sel.travelZone.None?)
  }

  /** Whether the distant-zone day count applies. */
  predicate OnSiteDistant(mode: Mode, zone: Option<ZoneId>)
  {
    mode == Presentiel && zone == Some(Distant)
  }

  /**
   * Billed days. On site in the distant zone a half-day offering is
   * billed whole days, two sessions to a day; everywhere else each
   * session counts its base days.
   */
  function BilledDays(f: FormationId, mode: Mode, zone: Option<ZoneId>, sessions: nat): (d: real)
    ensures d >= 0.0
    ensures !OnSiteDistant(mode, zone) ==> d == sessions as real * BaseDays(f)
    ensures OnSiteDistant(mode, zone) && IsHalfDay(f) ==> d == ((sessions + 1) / 2) as real
    ensures OnSiteDistant(mode, zone) && !IsHalfDay(f) ==> d == sessions as real
  {
    if OnSiteDistant(mode, zone) then
      if IsHalfDay(f) then
        CeilHalf(sessions);
        Ceil(sessions as real / 2.0) as real
      else
        sessions as real
    else
      sessions as real * (if IsHalfDay(f) then 0.5 else 1.0)
  }

  /**
   * Travel cost. Nothing unless on site with a zone; a local zone costs
   * nothing, a regional zone its daily rate per started day, the distant
   * zone 300 for a single day and otherwise 300 for the first and the last
   * day with 220 for each day in between.
   */
  function TravelCost(mode: Mode, zone: Option<ZoneId>, days: real): (c: real)
    ensures mode == Distanciel || zone.None? || zone == Some(Local) ==> c == 0.0
    ensures mode == Presentiel && zone == Some(Regional) ==> c == (180 * Ceil(days)) as real
    ensures OnSiteDistant(mode, zone) && days <= 1.0 ==> c == 300.0
    ensures OnSiteDistant(mode, zone) && days > 1.0 ==> c == 300.0 + 220.0 * (days - 2.0) + 300.0
  {
    if mode == Presentiel && zone.Some? then
      if zone.value == Distant then
        if days > 1.0 then 300.0 + 220.0 * (days - 2.0) + 300.0 else 300.0
      else
        ZonePricing(zone.value) * Ceil(days) as real
    else
      0.0
  }

  /** The money lines: excluding tax, 20% tax, including tax. */
  function Price(formation: string, mode: string, sessions: nat, travelZone: string,
                 tjm: real, days: real, travel: real): (q: Quote)
    ensures q.formation == formation && q.mode == mode && q.sessions == sessions
    ensures q.travelZone == travelZone && q.tjm == tjm && q.totalDays == days && q.travelCost == travel
    ensures q.totalHT - q.travelCost == tjm * days
    ensures q.tva == q.totalHT / 5.0
    ensures q.totalTTC == 1.2 * q.totalHT
  {
    var totalHT := tjm * days + travel;
    var tva := totalHT * VatRate;
    Quote(formation, mode, sessions, travelZone, travel, tjm, totalHT, days, tva, totalHT + tva)
  }

  /** calculateTotal. */
  function Calculate(sel: Selection): (r: Option<Quote>)
    ensures r.None? <==> Incomplete(sel)
  {
    if Incomplete(sel) then None
    else
      var f := sel.formation.value;
      var mode := sel.mode.value;
      var days := BilledDays(f, mode, sel.travelZone, sel.sessions.value);
      Some(Price(
        FormationLabel(f),
        ModeLabel(mode),
        sel.sessions.value,
        if mode == Presentiel then ZoneName(sel.travelZone.value) else "N/A",
        sel.tjm,
        days,
        TravelCost(mode, sel.travelZone, days)))
  }

  /** Math.ceil(n / 2) is the integer (n + 1) / 2. */
  lemma CeilHalf(n: nat)
    ensures Ceil(n as real / 2.0) == (n + 1) / 2
  {
    var k := (n + 1) / 2;
    assert n == 2 * k || n + 1 == 2 * k;
    assert n as real / 2.0 <= k as real < n as real / 2.0 + 1.0;
    CeilUnique(n as real / 2.0, k);
  }

  /** Ceil(x) is the only integer in [x, x + 1). */
  lemma CeilUnique(x: real, k: int)
    requires x <= k as real < x + 1.0
    ensures Ceil(x) == k
  {
  }

  /**
   * A quotation echoes the selection as display text: the offering's
   * label, the mode's label, the session count, the rate, and the zone's
   * name on site or "N/A" remotely.
   */
  lemma QuoteEcho(sel: Selection)
    requires !Incomplete(sel)
    ensures var q, f, m := Calculate(sel).value, sel.formation.value, sel.mode.value;
      && q.formation == FormationName(f) + " - " + FormationDuration(f)
      && q.mode == ModeLabel(m)
      && q.sessions == sel.sessions.value
      && q.tjm == sel.tjm
      && (m == Presentiel ==> q.travelZone == ZoneName(sel.travelZone.value))
      && (m == Distanciel ==> q.travelZone == "N/A")
  {
  }

  /** In remote mode there is no travel cost and the zone is ignored. */
  lemma RemoteQuote(sel: Selection, zone: Option<ZoneId>)
    requires !Incomplete(sel) && sel.mode == Some(Distanciel)
    ensures Calculate(sel.(travelZone := zone)) == Calculate(sel)
    ensures var q := Calculate(sel).value;
      && q.travelCost == 0.0
      && q.totalDays == sel.sessions.value as real * BaseDays(sel.formation.value)
      && q.travelZone == "N/A"
      && q.mode == "Distanciel"
      && q.totalHT == sel.tjm * q.totalDays
  {
  }

  /** On site in the distant zone the billed days are whole. */
  lemma OnSiteDistantDays(sel: Selection)
    requires !Incomplete(sel) && sel.mode == Some(Presentiel) && sel.travelZone == Some(Distant)
    ensures var q, n := Calculate(sel).value, sel.sessions.value;
      && IsWhole(q.totalDays)
      && (IsHalfDay(sel.formation.value) ==> q.totalDays == ((n + 1) / 2) as real)
      && (IsHalfDay(sel.formation.value) && 1 <= n <= 2 ==> q.totalDays == 1.0)
      && (IsHalfDay(sel.formation.value) && 3 <= n <= 4 ==> q.totalDays == 2.0)
      && (!IsHalfDay(sel.formation.value) ==> q.totalDays == n as real)
  {
  }

  /** On site, a local zone costs nothing and a regional one 180 per started day. */
  lemma OnSiteNearTravel(sel: Selection)
    requires !Incomplete(sel) && sel.mode == Some(Presentiel)
    requires sel.travelZone == Some(Local) || sel.travelZone == Some(Regional)
    ensures var q, n := Calculate(sel).value, sel.sessions.value;
      && q.totalDays == n as real * BaseDays(sel.formation.value)
      && (sel.travelZone == Some(Local) ==> q.travelCost == 0.0)
      && (sel.travelZone == Some(Regional) ==> q.travelCost == (180 * Ceil(q.totalDays)) as real)
      && (sel.travelZone == Some(Regional) && IsHalfDay(sel.formation.value) ==>
            q.travelCost == (180 * ((n + 1) / 2)) as real)
      && (sel.travelZone == Some(Regional) && !IsHalfDay(sel.formation.value) ==>
            q.travelCost == (180 * n) as real)
  {
    var q, n := Calculate(sel).value, sel.sessions.value;
    if sel.travelZone == Some(Regional) {
      if IsHalfDay(sel.formation.value) {
        CeilHalf(n);
      } else {
        CeilUnique(n as real, n);
      }
    }
  }

  /**
   * On site in the distant zone: 300 for at most one day, otherwise at
   * least two days and 300 + 220 per intermediate day + 300.
   */
  lemma OnSiteDistantTravel(sel: Selection)
    requires !Incomplete(sel) && sel.mode == Some(Presentiel) && sel.travelZone == Some(Distant)
    ensures var q := Calculate(sel).value;
      && (q.totalDays <= 1.0 ==> q.travelCost == 300.0)
      && (q.totalDays > 1.0 ==> q.totalDays >= 2.0 && q.travelCost == 300.0 + 220.0 * (q.totalDays - 2.0) + 300.0)
      && (q.totalDays == 2.0 ==> q.travelCost == 600.0)
      && (q.totalDays == 3.0 ==> q.travelCost == 820.0)
  {
    OnSiteDistantDays(sel);
  }

  /** With a non-negative rate every figure of a quotation is non-negative. */
  lemma QuoteNonNegative(sel: Selection)
    requires !Incomplete(sel) && sel.tjm >= 0.0
    ensures var q := Calculate(sel).value;
      q.totalDays >= 0.0 && q.travelCost >= 0.0 && q.totalHT >= 0.0 && q.tva >= 0.0 && q.totalTTC >= 0.0
  {
    var q := Calculate(sel).value;
    var days := BilledDays(sel.formation.value, sel.mode.value, sel.travelZone, sel.sessions.value);
    assert q.totalDays == days && q.tjm == sel.tjm;
    assert q.travelCost == TravelCost(sel.mode.value, sel.travelZone, days);
    assert sel.tjm * days >= 0.0;
  }

  /** M365, on site, 2 sessions, distant zone, TJM 1000. */
  lemma FullDayDistantExample()
    ensures var q := Calculate(Selection(Some(M365), Some(Presentiel), Some(2), Some(Distant), 1000.0)).value;
      && q.totalDays == 2.0 && q.travelCost == 600.0
      && q.totalHT == 2600.0 && q.tva == 520.0 && q.totalTTC == 3120.0
  {
  }

  /** Half-day cybersecurity, remote, 4 sessions, TJM 1200. */
  lemma HalfDayRemoteExample()
    ensures var q := Calculate(Selection(Some(CyberHalf), Some(Distanciel), Some(4), None, 1200.0)).value;
      && q.totalDays == 2.0 && q.travelCost == 0.0
      && q.totalHT == 2400.0 && q.tva == 480.0 && q.totalTTC == 2880.0
  {
  }

  /** In every mode and zone, the "2 heures" offering is billed one whole day per session. */
  lemma ShortOfferingBilledAsFullDay(sel: Selection)
    requires !Incomplete(sel) && sel.formation == Some(Cyber2h)
    ensures Calculate(sel).value.totalDays == sel.sessions.value as real
  {
  }
}
