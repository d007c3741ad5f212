/**
 * The records the application passes between its components: coordinates, the
 * bounty record held by the registry, the record the create form emits, and the
 * claim payload the claim modal emits.
 */
module Domain {
  import opened Js

  /** A `{lat, lng}` pair in degrees. */
  datatype Coord = Coord(lat: real, lng: real)

  /** `{lat: 0, lng: 0}`, used when no user location is known. */
  const Origin: Coord := Coord(0.0, 0.0)

  datatype Difficulty = Easy | Medium | Hard

  /** The two status strings the code ever writes: 'active' and 'claimed'. */
  datatype Status = Active | Claimed

  /**
   * A bounty as the registry stores it. `puzzle == ""` means no puzzle (the empty
   * string is falsy); `useAI` is false for the seed records, which lack the key;
   * `claimedBy` is absent until a claim writes it.
   */
  datatype Bounty = Bounty(
    id: string,
    title: string,
    description: string,
    reward: JsInt,
    difficulty: Difficulty,
    creator: string,
    location: Coord,
    puzzle: string,
    useAI: bool,
    createdAt: int,
    status: Status,
    claimedBy: Option<string>)

  /** What the create form hands to its `onSubmit` callback. */
  datatype BountyData = BountyData(
    id: string,
    title: string,
    description: string,
    reward: JsInt,
    difficulty: Difficulty,
    creator: string,
    location: Coord,
    puzzle: string,
    useAI: bool)

  /** What the claim modal hands to its `onClaim` callback. */
  datatype ClaimPayload = ClaimPayload(
    bountyId: string,
    claimer: string,
    location: Option<Coord>,
    puzzleAnswer: string,
    timestamp: int)

  /** The identity every record is stamped with in place of a real key. */
  const Anonymous: string := "anonymous"

  /** Which unit a distance (in km) is shown in. */
  datatype DistanceUnit = Metres | Kilometres

  /** The unit both `formatDistance` helpers choose: metres exactly when below 1 km. */
  function UnitFor(km: real): (u: DistanceUnit)
    ensures u == Metres <==> km < 1.0
    ensures u == Kilometres <==> km >= 1.0
  {
    if km < 1.0 then Metres else Kilometres
  }

  predicate IsActive(b: Bounty) {
    b.status == Active
  }

  predicate HasPuzzle(b: Bounty) {
    b.puzzle != ""
  }

  /** `claimedBy` is present exactly on the claimed records. */
  predicate ClaimedByConsistent(s: seq<Bounty>) {
    forall i | 0 <= i < |s| :: s[i].claimedBy.Some? <==> s[i].status == Claimed
  }
}
