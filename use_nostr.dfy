/**
 * The bounty registry hook: the list of bounty records, `publishBounty` (stamp the
 * record and put it first) and `claimBounty` (mark every record with the id as
 * claimed), and the Nostr events the two build. The events are only logged, so here
 * they are returned to the caller; their JSON `content` is not modelled.
 */
module UseNostr {
  import opened Js
  import opened Domain

  /** A Nostr event as the hook builds it (NIP-01 fields kind, tags, created_at in seconds). */
  datatype Event = Event(kind: int, tags: seq<seq<string>>, createdAt: int)

  const BountyKind: int := 30001
  const ClaimKind: int := 30002

  /** NIP-01: kinds 30000 to 39999 are addressable by kind, author and `d` tag. */
  predicate IsAddressable(kind: int) {
    30000 <= kind < 40000
  }

  /** NIP-01: the value of the first `d` tag, or "" when the event has none. */
  function DTagValue(tags: seq<seq<string>>): string {
    if tags == [] then ""
    else if |tags[0]| >= 1 && tags[0][0] == "d" then (if |tags[0]| >= 2 then tags[0][1] else "")
    else DTagValue(tags[1..])
  }

  /** The part of an addressable event's NIP-01 address that the event itself fixes. */
  datatype Address = Address(kind: int, d: string)

  function AddressOf(e: Event): Address {
    Address(e.kind, DTagValue(e.tags))
  }

  /** `Math.floor(now / 1000)`: milliseconds to whole seconds. */
  function Seconds(now: int): (t: int)
    ensures t * 1000 <= now < t * 1000 + 1000
  {
    now / 1000
  }

  // The seed records' display texts.
  const GoldenGateTitle: string := "Find the Golden Gate Secret"
  const GoldenGateDescription: string :=
    "Locate the hidden plaque near the Golden Gate Bridge and solve the riddle engraved on it."
  const GoldenGatePuzzle: string := "What connects two cities but touches neither?"
  const CentralParkTitle: string := "Central Park Treasure Hunt"
  const CentralParkDescription: string :=
    "Find the statue of Alice in Wonderland and count the characters around her."
  const CentralParkPuzzle: string := "How many characters surround Alice in this bronze wonderland?"
  const HollywoodTitle: string := "Hollywood Sign Challenge"
  const HollywoodDescription: string :=
    "Get to the best viewpoint of the Hollywood Sign and answer the puzzle."
  const HollywoodPuzzle: string := "In what year was this iconic sign first erected?"

  /** The three records the hook starts with, `createdAt` relative to the clock at start. */
  function Seeds(now: int): (s: seq<Bounty>)
    ensures |s| == 3
  {
    [ Bounty("1", GoldenGateTitle, GoldenGateDescription, Int(5000), Medium, "explorer123",
             Coord(37.8199, -122.4783), GoldenGatePuzzle, false, now - 3600000, Active, None),
      Bounty("2", CentralParkTitle, CentralParkDescription, Int(2500), Easy, "nyc_wanderer",
             Coord(40.7749, -73.9656), CentralParkPuzzle, false, now - 7200000, Active, None),
      Bounty("3", HollywoodTitle, HollywoodDescription, Int(10000), Hard, "la_explorer",
             Coord(34.1341, -118.3215), HollywoodPuzzle, false, now - 1800000, Active, None) ]
  }

  /** The seed list: ids "1", "2", "3", all active and unclaimed, each with a puzzle and a positive reward. */
  lemma SeedFacts(now: int)
    ensures var s := Seeds(now);
      && |s| == 3 && s[0].id == "1" && s[1].id == "2" && s[2].id == "3"
      && (forall i | 0 <= i < 3 :: IsActive(s[i]) && HasPuzzle(s[i]) && s[i].reward.Int? && s[i].reward.value > 0)
      && ClaimedByConsistent(s)
  {
    var s := Seeds(now);
    assert s[0].id == "1" && s[1].id == "2" && s[2].id == "3";
    forall i | 0 <= i < 3 ensures IsActive(s[i]) && HasPuzzle(s[i]) && s[i].reward.Int? && s[i].reward.value > 0 {
      assert |s[i].puzzle| > 0;
    }
  }

  /** The record `publishBounty` stores: the input with id and createdAt from the clock, status active. */
  function Stamp(b: Bounty, now: nat): (r: Bounty)
    ensures r.id == NatToString(now) && r.createdAt == now && r.status == Active
    ensures r.title == b.title && r.description == b.description && r.reward == b.reward
    ensures r.difficulty == b.difficulty && r.creator == b.creator && r.location == b.location
    ensures r.puzzle == b.puzzle && r.useAI == b.useAI && r.claimedBy == b.claimedBy
  {
    b.(id := NatToString(now), createdAt := now, status := Active)
  }

  /**
   * The kind-30001 event: an addressable event whose `d` tag carries the id of the INPUT
   * record (not the freshly stamped one), then the location and reward tags.
   */
  function BountyEvent(b: Bounty, now: int, showNumber: real -> string): (e: Event)
    ensures e.kind == BountyKind && IsAddressable(e.kind)
    ensures AddressOf(e) == Address(BountyKind, b.id)
    ensures |e.tags| == 3 && e.tags[0] == ["d", b.id]
    ensures e.tags[1] == ["location", showNumber(b.location.lat), showNumber(b.location.lng)]
    ensures e.tags[2] == ["reward", JsIntToString(b.reward)]
    ensures e.createdAt * 1000 <= now < e.createdAt * 1000 + 1000
  {
    Event(BountyKind,
          [["d", b.id],
           ["location", showNumber(b.location.lat), showNumber(b.location.lng)],
           ["reward", JsIntToString(b.reward)]],
          Seconds(now))
  }

  /** The kind-30002 event: an `e` tag referencing the bounty id and a `claim`/`success` tag. */
  function ClaimEvent(bountyId: string, now: int): (e: Event)
    ensures e.kind == ClaimKind && e.tags == [["e", bountyId], ["claim", "success"]]
    ensures e.createdAt * 1000 <= now < e.createdAt * 1000 + 1000
  {
    Event(ClaimKind, [["e", bountyId], ["claim", "success"]], Seconds(now))
  }

  /** Distinct bounty ids give distinct NIP-01 addresses for the bounty events. */
  lemma BountyEventAddressesDiffer(a: Bounty, b: Bounty, t1: int, t2: int, f: real -> string)
    requires a.id != b.id
    ensures AddressOf(BountyEvent(a, t1, f)) != AddressOf(BountyEvent(b, t2, f))
  {
  }

  /**
   * Kind 30002 is addressable too, but the claim event has no `d` tag, so every claim
   * event occupies the same address (kind 30002 with an empty `d` value).
   */
  lemma ClaimEventsShareAddress(id1: string, id2: string, t1: int, t2: int)
    ensures IsAddressable(ClaimEvent(id1, t1).kind)
    ensures AddressOf(ClaimEvent(id1, t1)) == AddressOf(ClaimEvent(id2, t2)) == Address(ClaimKind, "")
  {
    ClaimTagsHaveNoD(id1);
    ClaimTagsHaveNoD(id2);
  }

  lemma ClaimTagsHaveNoD(id: string)
    ensures DTagValue([["e", id], ["claim", "success"]]) == ""
  {
    var tags := [["e", id], ["claim", "success"]];
    assert tags[0][0] != "d" && tags[1][0] != "d";
    assert DTagValue(tags) == DTagValue(tags[1..]);
    assert tags[1..][1..] == [];
    assert DTagValue(tags[1..]) == DTagValue(tags[1..][1..]);
  }

  // ---------------------------------------------------------------------------
  // claimBounty's list update

  /** `{...bounty, status: 'claimed', claimedBy: claimer}`. */
  function ClaimRecord(b: Bounty, claimer: string): (r: Bounty)
    ensures r.status == Claimed && r.claimedBy == Some(claimer)
    ensures r.(status := b.status, claimedBy := b.claimedBy) == b
  {
    b.(status := Claimed, claimedBy := Some(claimer))
  }

  /** `prev.map(b => b.id === id ? {...b, status: 'claimed', claimedBy} : b)`. */
  function MarkClaimed(s: seq<Bounty>, id: string, claimer: string): (r: seq<Bounty>)
    ensures |r| == |s|
  {
    if s == [] then []
    else [if s[0].id == id then ClaimRecord(s[0], claimer) else s[0]] + MarkClaimed(s[1..], id, claimer)
  }

  /**
   * Every record with the id becomes claimed by `claimer`, whatever its status was;
   * every other record is left as it was, at the same position.
   */
  lemma {:induction false} MarkClaimedAt(s: seq<Bounty>, id: string, claimer: string, i: nat)
    requires i < |s|
    ensures MarkClaimed(s, id, claimer)[i] == if s[i].id == id then ClaimRecord(s[i], claimer) else s[i]
    decreases i
  {
    if i > 0 {
      MarkClaimedAt(s[1..], id, claimer, i - 1);
    }
  }

  /** Claiming changes only status and claimedBy: id, location, reward and creator stay. */
  lemma MarkClaimedKeepsFixedFields(s: seq<Bounty>, id: string, claimer: string, i: nat)
    requires i < |s|
    ensures var b, b' := s[i], MarkClaimed(s, id, claimer)[i];
      && b'.id == b.id && b'.location == b.location && b'.reward == b.reward && b'.creator == b.creator
      && b'.title == b.title && b'.puzzle == b.puzzle && b'.createdAt == b.createdAt
      && (b.id == id ==> b'.status == Claimed && b'.claimedBy == Some(claimer))
  {
    MarkClaimedAt(s, id, claimer, i);
  }

  /** An id that no record carries leaves the list identical. */
  lemma {:induction false} MarkClaimedUnknownId(s: seq<Bounty>, id: string, claimer: string)
    requires forall i | 0 <= i < |s| :: s[i].id != id
    ensures MarkClaimed(s, id, claimer) == s
    decreases |s|
  {
    if s != [] {
      MarkClaimedUnknownId(s[1..], id, claimer);
    }
  }

  /**
   * A second claim of the same id is accepted and overwrites `claimedBy`: the result is
   * as if only the second claim had happened (so claiming twice with one claimer is
   * the same as claiming once).
   */
  lemma {:induction false} ReclaimOverwrites(s: seq<Bounty>, id: string, first: string, second: string)
    ensures MarkClaimed(MarkClaimed(s, id, first), id, second) == MarkClaimed(s, id, second)
    decreases |s|
  {
    if s != [] {
      ReclaimOverwrites(s[1..], id, first, second);
      assert MarkClaimed(s, id, first)[1..] == MarkClaimed(s[1..], id, first);
    }
  }

  /** Claiming keeps `claimedBy` present exactly on the claimed records. */
  lemma MarkClaimedKeepsConsistency(s: seq<Bounty>, id: string, claimer: string)
    requires ClaimedByConsistent(s)
    ensures ClaimedByConsistent(MarkClaimed(s, id, claimer))
  {
    forall i | 0 <= i < |s|
      ensures MarkClaimed(s, id, claimer)[i].claimedBy.Some? <==> MarkClaimed(s, id, claimer)[i].status == Claimed
    {
      MarkClaimedAt(s, id, claimer, i);
    }
  }

  /** Publishing a record that has no `claimedBy` keeps the list consistent. */
  lemma PublishKeepsConsistency(s: seq<Bounty>, b: Bounty, now: nat)
    requires ClaimedByConsistent(s) && b.claimedBy.None?
    ensures ClaimedByConsistent([Stamp(b, now)] + s)
  {
    var r := [Stamp(b, now)] + s;
    forall i | 0 <= i < |r| ensures r[i].claimedBy.Some? <==> r[i].status == Claimed {
      if i > 0 { assert r[i] == s[i - 1]; }
    }
  }

  /** The hook's state: the bounty list and the simulated relay connection flag. */
  class Registry {
    var bounties: seq<Bounty>
    var isConnected: bool

    constructor(now: int)
      ensures bounties == Seeds(now) && !isConnected
    {
      bounties := Seeds(now);
      isConnected := false;
    }

    /** The one-second timer that simulates connecting to the relays. */
    method ConnectTimerFired()
      modifies this
      ensures isConnected && bounties == old(bounties)
    {
      isConnected := true;
    }

    /** `publishBounty`: the stamped record goes first, the previous list follows unchanged. */
    method Publish(data: Bounty, now: nat, showNumber: real -> string) returns (event: Event)
      modifies this
      ensures bounties == [Stamp(data, now)] + old(bounties)
      ensures |bounties| == |old(bounties)| + 1 && bounties[0] == Stamp(data, now)
      ensures bounties[1..] == old(bounties)
      ensures event == BountyEvent(data, now, showNumber)
      ensures isConnected == old(isConnected)
    {
      bounties := [Stamp(data, now)] + bounties;
      event := BountyEvent(data, now, showNumber);
    }

    /** `claimBounty`: no status check; every record with the id is marked claimed. */
    method Claim(bountyId: string, claim: ClaimPayload, now: int) returns (event: Event)
      modifies this
      ensures bounties == MarkClaimed(old(bounties), bountyId, claim.claimer)
      ensures event == ClaimEvent(bountyId, now)
      ensures isConnected == old(isConnected)
    {
      bounties := MarkClaimed(bounties, bountyId, claim.claimer);
      event := ClaimEvent(bountyId, now);
    }
  }
}
