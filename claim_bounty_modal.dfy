/**
 * The claim dialog: it keeps the measured distance to the bounty and whether that is
 * within 100 m, and its submit handler runs a short-circuiting guard chain (range
 * first, then a present puzzle answer) before it emits the claim payload. The
 * haversine distance is the function `dist`, supplied from outside.
 */
module ClaimBountyModal {
  import opened Js
  import opened Domain

  /** The claim radius in kilometres (100 m). */
  const ClaimRadiusKm: real := 0.1

  datatype Rejection = TooFarAway | PuzzleRequired

  datatype Decision = Reject(reason: Rejection) | Accept

  /**
   * The guard chain of `handleSubmit`: out of range is rejected first; then, for a bounty
   * with a puzzle, a blank answer (empty after `trim`) is rejected. The answer is never
   * compared with anything else.
   */
  function Decide(withinRange: bool, puzzle: string, answer: string): (d: Decision)
    ensures d == Reject(TooFarAway) <==> !withinRange
    ensures d == Reject(PuzzleRequired) <==> withinRange && puzzle != "" && AllWhiteSpace(answer)
    ensures d == Accept <==> withinRange && (puzzle == "" || !AllWhiteSpace(answer))
  {
    TrimEmptyIffBlank(answer);
    if !withinRange then Reject(TooFarAway)
    else if puzzle != "" && Trim(answer) == "" then Reject(PuzzleRequired)
    else Accept
  }

  /**
   * Two answers that are both non-blank are treated alike, whatever their content; and
   * without a puzzle even a blank answer passes.
   */
  lemma AnswerContentIgnored(withinRange: bool, puzzle: string, a1: string, a2: string)
    requires !AllWhiteSpace(a1) && !AllWhiteSpace(a2)
    ensures Decide(withinRange, puzzle, a1) == Decide(withinRange, puzzle, a2)
    ensures Decide(withinRange, "", "") == Decide(withinRange, puzzle, a1)
  {
  }

  /**
   * The claim payload: the bounty's id, the fixed anonymous claimer, the answer as typed,
   * and the location of the last fix if there is one, else the page's user location.
   */
  function Payload(bounty: Bounty, answer: string, currentLocation: Option<Coord>,
                   userLocation: Option<Coord>, now: int): (p: ClaimPayload)
    ensures p.bountyId == bounty.id && p.claimer == Anonymous && p.puzzleAnswer == answer
    ensures currentLocation.Some? ==> p.location == currentLocation
    ensures currentLocation.None? ==> p.location == userLocation
    ensures p.timestamp == now
  {
    ClaimPayload(bounty.id, Anonymous, if currentLocation.Some? then currentLocation else userLocation,
                 answer, now)
  }

  datatype SubmitOutcome = Rejected(reason: Rejection) | Accepted(payload: ClaimPayload)

  class ClaimModal {
    const bounty: Bounty
    const dist: (Coord, Coord) -> real
    var userLocation: Option<Coord>
    var puzzleAnswer: string
    var currentLocation: Option<Coord>
    var isWithinRange: bool
    var distance: Option<real>
    var isProcessing: bool

    /**
     * `isWithinRange` holds exactly when a distance has been measured and it is at most
     * 0.1 km; with the timer collapsed, no claim is ever left processing.
     */
    ghost predicate Valid()
      reads this
    {
      && (isWithinRange <==> distance.Some? && distance.value <= ClaimRadiusKm)
      && !isProcessing
    }

    /**
     * The claim button is disabled when out of range or while processing; in a valid state
     * that is exactly when no distance of at most 0.1 km has been measured.
     */
    function ClaimButtonDisabled(): (disabled: bool)
      reads this
      ensures Valid() ==> (disabled <==> !(distance.Some? && distance.value <= ClaimRadiusKm))
    {
      !isWithinRange || isProcessing
    }

    /** Mounting the dialog: empty answer, no fix, then the effect measures from the user location. */
    constructor(bounty: Bounty, userLocation: Option<Coord>, dist: (Coord, Coord) -> real)
      ensures Valid()
      ensures this.bounty == bounty && this.dist == dist && this.userLocation == userLocation
      ensures puzzleAnswer == "" && currentLocation == None
      ensures userLocation.Some? ==> distance == Some(dist(userLocation.value, bounty.location))
      ensures userLocation.None? ==> distance == None && !isWithinRange
    {
      this.bounty := bounty;
      this.dist := dist;
      this.userLocation := userLocation;
      puzzleAnswer := "";
      currentLocation := None;
      isProcessing := false;
      if userLocation.Some? {
        var d := dist(userLocation.value, bounty.location);
        distance := Some(d);
        isWithinRange := d <= ClaimRadiusKm;
      } else {
        distance := None;
        isWithinRange := false;
      }
    }

    /** The effect on a new user location: re-measure if there is one, else keep the old reading. */
    method UserLocationChanged(loc: Option<Coord>)
      requires Valid()
      modifies this
      ensures Valid() && userLocation == loc
      ensures loc.Some? ==> distance == Some(dist(loc.value, bounty.location))
      ensures loc.None? ==> distance == old(distance) && isWithinRange == old(isWithinRange)
      ensures puzzleAnswer == old(puzzleAnswer) && currentLocation == old(currentLocation)
    {
      userLocation := loc;
      if loc.Some? {
        var d := dist(loc.value, bounty.location);
        distance := Some(d);
        isWithinRange := d <= ClaimRadiusKm;
      }
    }

    /** The success callback of "Update Location": record the fix and measure from it. */
    method LocationFix(fix: Coord)
      requires Valid()
      modifies this
      ensures Valid()
      ensures currentLocation == Some(fix) && distance == Some(dist(fix, bounty.location))
      ensures isWithinRange <==> dist(fix, bounty.location) <= ClaimRadiusKm
      ensures puzzleAnswer == old(puzzleAnswer) && userLocation == old(userLocation)
    {
      currentLocation := Some(fix);
      var d := dist(fix, bounty.location);
      distance := Some(d);
      isWithinRange := d <= ClaimRadiusKm;
    }

    /** Typing in the answer box. */
    method SetPuzzleAnswer(answer: string)
      requires Valid()
      modifies this
      ensures Valid() && puzzleAnswer == answer
      ensures currentLocation == old(currentLocation) && userLocation == old(userLocation)
      ensures distance == old(distance) && isWithinRange == old(isWithinRange)
    {
      puzzleAnswer := answer;
    }

    /**
     * `handleSubmit` with its two-second timer collapsed: a rejection changes nothing; an
     * accepted claim sets and then clears `isProcessing` and emits the payload.
     */
    method Submit(now: int) returns (outcome: SubmitOutcome)
      requires Valid()
      modifies this
      ensures Valid()
      ensures old(ClaimButtonDisabled()) ==> outcome.Rejected?
      ensures !old(isWithinRange) ==> outcome == Rejected(TooFarAway)
      ensures old(isWithinRange) && HasPuzzle(bounty) && AllWhiteSpace(old(puzzleAnswer))
              ==> outcome == Rejected(PuzzleRequired)
      ensures old(isWithinRange) && (!HasPuzzle(bounty) || !AllWhiteSpace(old(puzzleAnswer)))
              ==> outcome == Accepted(Payload(bounty, old(puzzleAnswer), old(currentLocation), old(userLocation), now))
      ensures puzzleAnswer == old(puzzleAnswer) && currentLocation == old(currentLocation)
      ensures userLocation == old(userLocation) && distance == old(distance)
      ensures isWithinRange == old(isWithinRange)
    {
      var decision := Decide(isWithinRange, bounty.puzzle, puzzleAnswer);
      match decision {
        case Reject(reason) =>
          outcome := Rejected(reason);
        case Accept =>
          isProcessing := true;
          outcome := Accepted(Payload(bounty, puzzleAnswer, currentLocation, userLocation, now));
          isProcessing := false;
      }
    }
  }
}
