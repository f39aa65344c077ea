/** The occupancy summary a lot reports, and what the occupancy screen
    derives from it: a three-tier status shown as a colour and a text, and
    the width of the fill gauge. */
module OccupancyStatus {
  import opened Nullable

  /** One snapshot of a lot, as the backend sends it. Counts are integers
      and the rate is a percentage. */
  datatype ParkingSpotSummary = ParkingSpotSummary(
    totalSpots: int,
    occupiedSpots: int,
    vacantSpots: int,
    occupancyRate: real,
    occupiedSpotIndex: seq<int>)

  /** The status tiers, plus the one used before any data has arrived. */
  datatype Tier = Unknown | Plenty | FillingUp | AlmostFull

  /** The rate range of each tier: below 50, from 50 up to 80, 80 and above.
      50 and 80 are inclusive lower bounds. */
  predicate InTier(rate: real, t: Tier)
  {
    match t
    case Unknown => false
    case Plenty => rate < 50.0
    case FillingUp => 50.0 <= rate < 80.0
    case AlmostFull => 80.0 <= rate
  }

  /** The tier of the current data. */
  function TierOf(data: Option<ParkingSpotSummary>): (t: Tier)
    ensures t == Unknown <==> data.None?
    ensures data.Some? ==> InTier(data.value.occupancyRate, t)
  {
    match data
    case None => Unknown
    case Some(s) =>
      if s.occupancyRate < 50.0 then Plenty
      else if s.occupancyRate < 80.0 then FillingUp
      else AlmostFull
  }

  /** How severe a tier is; Unknown is below all of them. */
  function Severity(t: Tier): (n: nat)
    ensures t == Unknown <==> n == 0
    ensures n <= 3
  {
    match t
    case Unknown => 0
    case Plenty => 1
    case FillingUp => 2
    case AlmostFull => 3
  }

  /** The status never gets less severe as the occupancy rate rises. */
  lemma SeverityMonotonic(a: ParkingSpotSummary, b: ParkingSpotSummary)
    requires a.occupancyRate <= b.occupancyRate
    ensures Severity(TierOf(Some(a))) <= Severity(TierOf(Some(b)))
  {
  }

  const Gray := "#64748b"
  const Green := "#22c55e"
  const Yellow := "#eab308"
  const Red := "#ef4444"

  /** The colour each tier is drawn in. */
  function TierColor(t: Tier): string
  {
    match t
    case Unknown => Gray
    case Plenty => Green
    case FillingUp => Yellow
    case AlmostFull => Red
  }

  /** The words each tier is described by. */
  function TierText(t: Tier): string
  {
    match t
    case Unknown => "Unknown"
    case Plenty => "Plenty of spots available"
    case FillingUp => "Filling up"
    case AlmostFull => "Almost full"
  }

  /** No two tiers share a colour, and no two share a text. */
  lemma TierPresentationInjective(t: Tier, u: Tier)
    ensures TierColor(t) == TierColor(u) <==> t == u
    ensures TierText(t) == TierText(u) <==> t == u
  {
    if t != u {
      assert TierColor(t)[1] != TierColor(u)[1] || TierColor(t)[2] != TierColor(u)[2];
      assert |TierText(t)| != |TierText(u)|;
    }
  }

  /** The status colour, decided as the screen decides it. */
  function StatusColor(data: Option<ParkingSpotSummary>): (color: string)
    ensures color == TierColor(TierOf(data))
  {
    if data.None? then Gray
    else
      var occupancyRate := data.value.occupancyRate;
      if occupancyRate < 50.0 then Green
      else if occupancyRate < 80.0 then Yellow
      else Red
  }

  /** The status text, decided as the screen decides it. */
  function StatusText(data: Option<ParkingSpotSummary>): (text: string)
    ensures text == TierText(TierOf(data))
  {
    if data.None? then "Unknown"
    else
      var occupancyRate := data.value.occupancyRate;
      if occupancyRate < 50.0 then "Plenty of spots available"
      else if occupancyRate < 80.0 then "Filling up"
      else "Almost full"
  }

  /** Colour and text always name the same tier: the colour is a tier's
      colour exactly when the text is that tier's text. */
  lemma ColorAndTextAgree(data: Option<ParkingSpotSummary>, t: Tier)
    ensures StatusColor(data) == TierColor(t) <==> StatusText(data) == TierText(t)
    ensures StatusColor(data) == TierColor(t) <==> (if data.None? then t == Unknown else InTier(data.value.occupancyRate, t))
  {
    TierPresentationInjective(TierOf(data), t);
    TierRangesPartition(data, t);
  }

  /** The ranges partition the rates: the tier of the data is the only one
      whose range holds its rate (or Unknown, with no data). */
  lemma TierRangesPartition(data: Option<ParkingSpotSummary>, t: Tier)
    ensures (if data.None? then t == Unknown else InTier(data.value.occupancyRate, t)) <==> t == TierOf(data)
  {
  }

  /** The gauge width in percent: 0 with no data, otherwise the occupied
      share of the lot. Division by a total of 0 is not defined here. */
  function FillPercentage(data: Option<ParkingSpotSummary>): (p: real)
    requires data.Some? ==> data.value.totalSpots > 0
    ensures data.None? ==> p == 0.0
    ensures data.Some? ==> p * (data.value.totalSpots as real) == (data.value.occupiedSpots as real) * 100.0
  {
    if data.None? then 0.0
    else (data.value.occupiedSpots as real / data.value.totalSpots as real) * 100.0
  }

  /** Multiplying by a positive number keeps the sign. */
  lemma SignOfProduct(a: real, b: real)
    requires b > 0.0
    ensures a * b < 0.0 <==> a < 0.0
    ensures a * b == 0.0 <==> a == 0.0
  {
    if a < 0.0 {
      assert a * b < 0.0;
    } else if a > 0.0 {
      assert a * b > 0.0;
    }
  }

  /** For a consistent summary the gauge lies between empty and full, is
      empty exactly when no spot is taken and full exactly when all are. */
  lemma FillPercentageBounds(s: ParkingSpotSummary)
    requires s.totalSpots > 0 && 0 <= s.occupiedSpots <= s.totalSpots
    ensures 0.0 <= FillPercentage(Some(s)) <= 100.0
    ensures FillPercentage(Some(s)) == 0.0 <==> s.occupiedSpots == 0
    ensures FillPercentage(Some(s)) == 100.0 <==> s.occupiedSpots == s.totalSpots
  {
    var p := FillPercentage(Some(s));
    var total := s.totalSpots as real;
    var occupied := s.occupiedSpots as real;
    assert p * total == occupied * 100.0;
    assert (p - 100.0) * total == (occupied - total) * 100.0;
    SignOfProduct(p, total);
    SignOfProduct(p - 100.0, total);
  }

  /** More occupied spots in a lot of the same size never shrink the gauge. */
  lemma FillPercentageMonotonic(a: ParkingSpotSummary, b: ParkingSpotSummary)
    requires a.totalSpots == b.totalSpots > 0 && a.occupiedSpots <= b.occupiedSpots
    ensures FillPercentage(Some(a)) <= FillPercentage(Some(b))
  {
    var pa, pb := FillPercentage(Some(a)), FillPercentage(Some(b));
    var total := a.totalSpots as real;
    assert (pb - pa) * total == (b.occupiedSpots - a.occupiedSpots) as real * 100.0;
    SignOfProduct(pb - pa, total);
  }
}
