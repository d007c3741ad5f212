/**
 * The bounty list view: an empty-state branch for an empty list, otherwise one card per
 * bounty showing its age bucket, its distance label and, when the user location is known,
 * a progress bar whose width is clamped to [10, 100]. The distance is the function `dist`
 * and the clock is `now`, both supplied from outside.
 */
module BountyFeed {
  import opened Js
  import opened Domain

  const MinuteMs: int := 60000
  const HourMs: int := 3600000
  const DayMs: int := 86400000

  datatype DistanceLabel = LocationUnknown | Away(unit: DistanceUnit)

  /** `formatDistance`: "Location unknown" without a user location, else metres or kilometres "away". */
  function FormatDistance(userLocation: Option<Coord>, at: Coord, dist: (Coord, Coord) -> real): (l: DistanceLabel)
    ensures l == LocationUnknown <==> userLocation.None?
    ensures userLocation.Some? ==> (l == Away(Metres) <==> dist(userLocation.value, at) < 1.0)
    ensures userLocation.Some? ==> (l == Away(Kilometres) <==> dist(userLocation.value, at) >= 1.0)
  {
    if userLocation.None? then LocationUnknown else Away(UnitFor(dist(userLocation.value, at)))
  }

  /**
   * `formatTimeAgo`: whole days when at least one day has passed, else whole hours when
   * at least one hour has, else whole minutes (negative for a time in the future). Each
   * count is `Math.floor` of the difference, which for a positive divisor is Dafny's `/`.
   */
  function FormatTimeAgo(now: int, timestamp: int): (r: string)
    ensures var diff := now - timestamp;
      && (diff >= DayMs ==> r == IntToString(diff / DayMs) + "d ago")
      && (HourMs <= diff < DayMs ==> r == IntToString(diff / HourMs) + "h ago")
      && (diff < HourMs ==> r == IntToString(diff / MinuteMs) + "m ago")
  {
    var diff := now - timestamp;
    var minutes, hours, days := diff / MinuteMs, diff / HourMs, diff / DayMs;
    if days > 0 then IntToString(days) + "d ago"
    else if hours > 0 then IntToString(hours) + "h ago"
    else IntToString(minutes) + "m ago"
  }

  /** The number shown by `formatTimeAgo` reads back, with `parseInt`, as the bucket's count. */
  lemma TimeAgoCountReadsBack(now: int, timestamp: int)
    ensures var diff := now - timestamp;
      var n := if diff >= DayMs then diff / DayMs else if diff >= HourMs then diff / HourMs else diff / MinuteMs;
      ParseInt(FormatTimeAgo(now, timestamp)) == Int(n)
  {
    var diff := now - timestamp;
    var n := if diff >= DayMs then diff / DayMs else if diff >= HourMs then diff / HourMs else diff / MinuteMs;
    var suffix := if diff >= DayMs then "d ago" else if diff >= HourMs then "h ago" else "m ago";
    assert FormatTimeAgo(now, timestamp) == IntToString(n) + suffix;
    ParseIntOfIntToString(n, suffix);
  }

  function Max(a: real, b: real): real { if a >= b then a else b }

  function Min(a: real, b: real): real { if a <= b then a else b }

  /** `Math.max(10, Math.min(100, 100 - d * 10))`: the bar's width in percent. */
  function ProgressWidth(d: real): (w: real)
    ensures 10.0 <= w <= 100.0
    ensures d <= 0.0 ==> w == 100.0
    ensures 0.0 <= d <= 9.0 ==> w == 100.0 - d * 10.0
    ensures d >= 9.0 ==> w == 10.0
  {
    Max(10.0, Min(100.0, 100.0 - d * 10.0))
  }

  /** A nearer bounty never gets a narrower bar. */
  lemma ProgressWidthAntitone(d1: real, d2: real)
    requires d1 <= d2
    ensures ProgressWidth(d2) <= ProgressWidth(d1)
  {
  }

  /** What one card shows that depends on more than a single field. */
  datatype Card = Card(
    bounty: Bounty,
    timeAgo: string,
    distance: DistanceLabel,
    showsPuzzle: bool,
    progress: Option<real>)

  datatype FeedView = EmptyState | Cards(cards: seq<Card>)

  function CardFor(b: Bounty, userLocation: Option<Coord>, now: int, dist: (Coord, Coord) -> real): (c: Card)
    ensures c.bounty == b && c.showsPuzzle == HasPuzzle(b)
    ensures c.progress.Some? <==> userLocation.Some?
  {
    Card(b, FormatTimeAgo(now, b.createdAt), FormatDistance(userLocation, b.location, dist),
         HasPuzzle(b),
         if userLocation.Some? then Some(ProgressWidth(dist(userLocation.value, b.location))) else None)
  }

  /**
   * The component: the empty state exactly for an empty list, otherwise one card per
   * bounty in list order, the bar present exactly when the user location is known. A
   * card's button forwards the card's own bounty.
   */
  function Render(bounties: seq<Bounty>, userLocation: Option<Coord>, now: int,
                  dist: (Coord, Coord) -> real): (v: FeedView)
    ensures v == EmptyState <==> bounties == []
    ensures v.Cards? ==> |v.cards| == |bounties|
    ensures v.Cards? ==> forall i | 0 <= i < |bounties| ::
              && v.cards[i].bounty == bounties[i]
              && v.cards[i].timeAgo == FormatTimeAgo(now, bounties[i].createdAt)
              && v.cards[i].distance == FormatDistance(userLocation, bounties[i].location, dist)
              && (v.cards[i].showsPuzzle <==> bounties[i].puzzle != "")
              && (v.cards[i].progress.Some? <==> userLocation.Some?)
              && (v.cards[i].progress.Some? ==> 10.0 <= v.cards[i].progress.value <= 100.0)
  {
    if bounties == [] then EmptyState
    else Cards(seq(|bounties|, i requires 0 <= i < |bounties| => CardFor(bounties[i], userLocation, now, dist)))
  }
}
