/**
 * The page component: it derives the active and nearby lists and the reward total from
 * the registry's list, completes a submitted form into a stored record, and routes a
 * selected bounty's claim to the registry. The haversine distance is the function
 * `dist`, supplied from outside.
 */
module IndexPage {
  import opened Js
  import opened Domain
  import opened UseNostr

  /** The "nearby" radius in kilometres. */
  const NearbyRadiusKm: real := 10.0

  datatype View = MapView | FeedView | NearbyView

  /** `bounties.filter(b => b.status === 'active')`. */
  function ActiveBounties(s: seq<Bounty>): (r: seq<Bounty>)
    ensures IsSubsequence(r, s)
    ensures forall i | 0 <= i < |r| :: IsActive(r[i]) && r[i] in s
    ensures forall i | 0 <= i < |s| :: IsActive(s[i]) ==> s[i] in r
  {
    FilterIsSubsequence(s, IsActive);
    FilterMembers(s, IsActive);
    Filter(s, IsActive)
  }

  /** The nearby test: within 10 km of `loc`. */
  function Within(loc: Coord, dist: (Coord, Coord) -> real): Bounty -> bool {
    (b: Bounty) => dist(loc, b.location) <= NearbyRadiusKm
  }

  /** Active and within 10 km of `loc`, as one test. */
  function ActiveWithin(loc: Coord, dist: (Coord, Coord) -> real): Bounty -> bool {
    (b: Bounty) => IsActive(b) && dist(loc, b.location) <= NearbyRadiusKm
  }

  /**
   * The nearby list: empty without a location; otherwise exactly the active bounties
   * within 10 km, in list order.
   */
  function NearbyBounties(s: seq<Bounty>, location: Option<Coord>, dist: (Coord, Coord) -> real): (r: seq<Bounty>)
    ensures location.None? ==> r == []
    ensures location.Some? ==> IsSubsequence(r, ActiveBounties(s))
    ensures forall i | 0 <= i < |r| ::
              && location.Some? && r[i] in s && IsActive(r[i])
              && dist(location.value, r[i].location) <= NearbyRadiusKm
    ensures location.Some? ==>
              forall i | 0 <= i < |s| ::
                IsActive(s[i]) && dist(location.value, s[i].location) <= NearbyRadiusKm ==> s[i] in r
  {
    if location.None? then []
    else
      var a := ActiveBounties(s);
      var r := Filter(a, Within(location.value, dist));
      FilterIsSubsequence(a, Within(location.value, dist));
      FilterMembers(a, Within(location.value, dist));
      assert forall i | 0 <= i < |s| ::
               IsActive(s[i]) && dist(location.value, s[i].location) <= NearbyRadiusKm ==> s[i] in r by {
        forall i | 0 <= i < |s| && IsActive(s[i]) && dist(location.value, s[i].location) <= NearbyRadiusKm
          ensures s[i] in r
        {
          var j :| 0 <= j < |a| && a[j] == s[i];
          assert Within(location.value, dist)(a[j]);
        }
      }
      assert forall i | 0 <= i < |r| :: r[i] in s by {
        forall i | 0 <= i < |r| ensures r[i] in s {
          var j :| 0 <= j < |a| && a[j] == r[i];
        }
      }
      r
  }

  /** The active list keeps every active record as often as it occurs, and no other. */
  lemma ActiveCounts(s: seq<Bounty>)
    ensures forall x :: multiset(ActiveBounties(s))[x] == if IsActive(x) then multiset(s)[x] else 0
  {
    FilterCounts(s, IsActive);
  }

  /** The nearby list keeps every active record within 10 km as often as it occurs, and no other. */
  lemma NearbyCounts(s: seq<Bounty>, loc: Coord, dist: (Coord, Coord) -> real)
    ensures forall x :: multiset(NearbyBounties(s, Some(loc), dist))[x] ==
              if IsActive(x) && dist(loc, x.location) <= NearbyRadiusKm then multiset(s)[x] else 0
  {
    NearbyInOnePass(s, loc, dist);
    FilterCounts(s, ActiveWithin(loc, dist));
  }

  /** The nearby list is a single filter of the whole list by "active and within 10 km". */
  lemma NearbyInOnePass(s: seq<Bounty>, loc: Coord, dist: (Coord, Coord) -> real)
    ensures NearbyBounties(s, Some(loc), dist) == Filter(s, ActiveWithin(loc, dist))
  {
    FilterFilter(s, IsActive, Within(loc, dist), ActiveWithin(loc, dist));
  }

  /** The badge on the "Nearby" tab: shown exactly when some active bounty is within 10 km. */
  function NearbyBadgeShown(s: seq<Bounty>, location: Option<Coord>, dist: (Coord, Coord) -> real): (shown: bool)
    ensures shown <==>
              location.Some? &&
              exists i | 0 <= i < |s| :: IsActive(s[i]) && dist(location.value, s[i].location) <= NearbyRadiusKm
  {
    var r := NearbyBounties(s, location, dist);
    assert |r| > 0 ==> exists j | 0 <= j < |s| :: s[j] == r[0] by {
      if |r| > 0 {
        var j :| 0 <= j < |s| && s[j] == r[0];
      }
    }
    |r| > 0
  }

  /** What the selected view lists: the active bounties, or the nearby ones. */
  function Listed(s: seq<Bounty>, view: View, location: Option<Coord>, dist: (Coord, Coord) -> real): (r: seq<Bounty>)
    ensures forall i | 0 <= i < |r| :: IsActive(r[i]) && r[i] in s
  {
    match view
    case MapView => ActiveBounties(s)
    case FeedView => ActiveBounties(s)
    case NearbyView => NearbyBounties(s, location, dist)
  }

  // The "Total Rewards" card

  /** `reduce((sum, b) => sum + b.reward, acc)`: a left fold with NaN-absorbing addition. */
  function SumRewards(acc: JsInt, s: seq<Bounty>): (r: JsInt)
    ensures acc.NaN? ==> r.NaN?
    decreases |s|
  {
    if s == [] then acc else SumRewards(Add(acc, s[0].reward), s[1..])
  }

  predicate SomeRewardNaN(s: seq<Bounty>) {
    exists i | 0 <= i < |s| :: s[i].reward.NaN?
  }

  /** The arithmetic sum of the integer rewards (a NaN reward counted as 0). */
  function RewardSum(s: seq<Bounty>): int {
    if s == [] then 0 else (if s[0].reward.Int? then s[0].reward.value else 0) + RewardSum(s[1..])
  }

  /** The fold is NaN exactly when its start or some reward is NaN, and otherwise their sum. */
  lemma {:induction false} SumRewardsIsSum(acc: JsInt, s: seq<Bounty>)
    ensures SumRewards(acc, s) == if acc.NaN? || SomeRewardNaN(s) then NaN else Int(acc.value + RewardSum(s))
    decreases |s|
  {
    if s != [] {
      SumRewardsIsSum(Add(acc, s[0].reward), s[1..]);
      assert SomeRewardNaN(s) <==> s[0].reward.NaN? || SomeRewardNaN(s[1..]) by {
        if SomeRewardNaN(s[1..]) {
          var i :| 0 <= i < |s[1..]| && s[1..][i].reward.NaN?;
          assert s[i + 1].reward.NaN?;
        }
        if SomeRewardNaN(s) && !s[0].reward.NaN? {
          var i :| 0 <= i < |s| && s[i].reward.NaN?;
          assert s[1..][i - 1].reward.NaN?;
        }
      }
    }
  }

  /** The total over the active bounties: NaN once any active reward is NaN, else the sum. */
  function TotalRewards(s: seq<Bounty>): (t: JsInt)
    ensures t.NaN? <==> SomeRewardNaN(ActiveBounties(s))
    ensures t.Int? ==> t.value == RewardSum(ActiveBounties(s))
  {
    SumRewardsIsSum(Int(0), ActiveBounties(s));
    SumRewards(Int(0), ActiveBounties(s))
  }

  // How the derived lists follow the registry's two operations

  /** A published record is active, so it heads the active list. */
  lemma ActiveAfterPublish(s: seq<Bounty>, b: Bounty, now: nat)
    ensures ActiveBounties([Stamp(b, now)] + s) == [Stamp(b, now)] + ActiveBounties(s)
  {
    FilterCons(Stamp(b, now), s, IsActive);
  }

  /** Publishing adds the new reward to the total. */
  lemma TotalAfterPublish(s: seq<Bounty>, b: Bounty, now: nat)
    ensures TotalRewards([Stamp(b, now)] + s) == Add(b.reward, TotalRewards(s))
  {
    var x, a := Stamp(b, now), ActiveBounties(s);
    ActiveAfterPublish(s, b, now);
    assert ([x] + a)[1..] == a;
    assert SomeRewardNaN([x] + a) <==> x.reward.NaN? || SomeRewardNaN(a) by {
      if SomeRewardNaN(a) {
        var i :| 0 <= i < |a| && a[i].reward.NaN?;
        assert ([x] + a)[i + 1].reward.NaN?;
      }
      if SomeRewardNaN([x] + a) && !x.reward.NaN? {
        var i :| 0 <= i < |[x] + a| && ([x] + a)[i].reward.NaN?;
        assert a[i - 1].reward.NaN?;
      }
    }
  }

  /** `b => b.id !== id`. */
  function IdIsNot(id: string): Bounty -> bool {
    (b: Bounty) => b.id != id
  }

  /** A claim takes every record with the claimed id off the active list, and nothing else. */
  lemma ActiveAfterClaim(s: seq<Bounty>, id: string, claimer: string)
    ensures ActiveBounties(MarkClaimed(s, id, claimer)) == Filter(ActiveBounties(s), IdIsNot(id))
  {
    FilterActiveAfterClaim(s, id, claimer);
  }

  lemma {:induction false} FilterActiveAfterClaim(s: seq<Bounty>, id: string, claimer: string)
    ensures Filter(MarkClaimed(s, id, claimer), IsActive) == Filter(Filter(s, IsActive), IdIsNot(id))
    decreases |s|
  {
    if s != [] {
      FilterActiveAfterClaim(s[1..], id, claimer);
      MarkClaimedCons(s, id, claimer);
      ClaimStep(s[0], s[1..], MarkClaimed(s[1..], id, claimer), id, claimer);
    }
  }

  lemma MarkClaimedCons(s: seq<Bounty>, id: string, claimer: string)
    requires s != []
    ensures MarkClaimed(s, id, claimer)
              == [if s[0].id == id then ClaimRecord(s[0], claimer) else s[0]] + MarkClaimed(s[1..], id, claimer)
  {
  }

  /** One step of the induction above, for head `x`, tail `t` and the tail's image `m`. */
  lemma ClaimStep(x: Bounty, t: seq<Bounty>, m: seq<Bounty>, id: string, claimer: string)
    requires Filter(m, IsActive) == Filter(Filter(t, IsActive), IdIsNot(id))
    ensures Filter([if x.id == id then ClaimRecord(x, claimer) else x] + m, IsActive)
            == Filter(Filter([x] + t, IsActive), IdIsNot(id))
  {
    var x' := if x.id == id then ClaimRecord(x, claimer) else x;
    assert IsActive(x') == (IsActive(x) && IdIsNot(id)(x));
    FilterStep(x, x', t, m, IsActive, IdIsNot(id));
  }

  /** After a claim on `id`, no view lists a bounty with that id. */
  lemma ClaimedNotListed(s: seq<Bounty>, id: string, claimer: string, view: View,
                         location: Option<Coord>, dist: (Coord, Coord) -> real)
    ensures var r := Listed(MarkClaimed(s, id, claimer), view, location, dist);
      forall i | 0 <= i < |r| :: r[i].id != id
  {
    var m := MarkClaimed(s, id, claimer);
    var r := Listed(m, view, location, dist);
    forall i | 0 <= i < |r| ensures r[i].id != id {
      var j :| 0 <= j < |m| && m[j] == r[i];
      MarkClaimedAt(s, id, claimer, j);
    }
  }

  /** The seed list's total is 5000 + 2500 + 10000. */
  lemma SeedTotal(now: int)
    ensures TotalRewards(Seeds(now)) == Int(17500)
  {
    var s := Seeds(now);
    SeedFacts(now);
    FilterAllKept(s, IsActive);
    assert s[1..][1..][1..] == [];
    assert RewardSum(s) == 5000 + RewardSum(s[1..]);
    assert RewardSum(s[1..]) == 2500 + RewardSum(s[1..][1..]);
    assert RewardSum(s[1..][1..]) == 10000;
    assert !SomeRewardNaN(s);
  }

  // handleCreateBounty

  /**
   * `{...bountyData, location: location || {lat: 0, lng: 0}, createdAt, status: 'active'}`:
   * the page's location (or the origin) replaces the one typed into the form.
   */
  function PrepareForPublish(d: BountyData, location: Option<Coord>, now: int): (b: Bounty)
    ensures b.location == if location.Some? then location.value else Origin
    ensures b.createdAt == now && b.status == Active && b.claimedBy == None
    ensures b.id == d.id && b.title == d.title && b.description == d.description && b.reward == d.reward
    ensures b.difficulty == d.difficulty && b.creator == d.creator && b.puzzle == d.puzzle && b.useAI == d.useAI
  {
    Bounty(d.id, d.title, d.description, d.reward, d.difficulty, d.creator,
           if location.Some? then location.value else Origin,
           d.puzzle, d.useAI, now, Active, None)
  }

  /** The coordinates entered in the form never reach the stored record. */
  lemma FormLocationDiscarded(d: BountyData, typed: Coord, location: Option<Coord>, now: int)
    ensures PrepareForPublish(d.(location := typed), location, now) == PrepareForPublish(d, location, now)
  {
  }

  /**
   * The published event's `d` tag carries the id the form stamped at its own clock
   * reading `formNow`, while the stored record gets the id of the page's reading `now`:
   * the two agree exactly when both readings fall in the same millisecond.
   */
  lemma EventTagMatchesStoredIdIff(d: BountyData, formNow: nat, location: Option<Coord>, now: nat,
                                   showNumber: real -> string)
    requires d.id == NatToString(formNow)
    ensures var b := PrepareForPublish(d, location, now);
      AddressOf(BountyEvent(b, now, showNumber)).d == Stamp(b, now).id <==> formNow == now
  {
    if NatToString(formNow) == NatToString(now) {
      DigitsValueOfNatToString(formNow);
      DigitsValueOfNatToString(now);
    }
  }

  /** The page's state, over the registry hook it owns. */
  class Page {
    const registry: Registry
    var location: Option<Coord>
    var selected: Option<Bounty>
    var showCreateForm: bool
    var showClaimModal: bool
    var activeView: View

    /** The registry's list keeps `claimedBy` on exactly the claimed records; an open claim dialog has a bounty. */
    ghost predicate Valid()
      reads this, registry
    {
      ClaimedByConsistent(registry.bounties) && (showClaimModal ==> selected.Some?)
    }

    constructor(now: int)
      ensures Valid() && fresh(registry)
      ensures registry.bounties == Seeds(now) && !registry.isConnected
      ensures location == None && selected == None && activeView == MapView
      ensures !showCreateForm && !showClaimModal
    {
      registry := new Registry(now);
      location := None;
      selected := None;
      showCreateForm := false;
      showClaimModal := false;
      activeView := MapView;
      SeedFacts(now);
    }

    /** A new reading from the location hook. */
    method LocationChanged(loc: Option<Coord>)
      requires Valid()
      modifies this
      ensures Valid() && location == loc
      ensures selected == old(selected) && activeView == old(activeView)
      ensures showCreateForm == old(showCreateForm) && showClaimModal == old(showClaimModal)
    {
      location := loc;
    }

    method SetActiveView(v: View)
      requires Valid()
      modifies this
      ensures Valid() && activeView == v
      ensures location == old(location) && selected == old(selected)
      ensures showCreateForm == old(showCreateForm) && showClaimModal == old(showClaimModal)
    {
      activeView := v;
    }

    /** The "Create Bounty" button, and the form's close callback. */
    method SetCreateFormOpen(open: bool)
      requires Valid()
      modifies this
      ensures Valid() && showCreateForm == open
      ensures location == old(location) && selected == old(selected) && activeView == old(activeView)
      ensures showClaimModal == old(showClaimModal)
    {
      showCreateForm := open;
    }

    /** `handleCreateBounty`: complete the form's record, publish it, close the form. */
    method CreateBounty(d: BountyData, now: nat, showNumber: real -> string) returns (event: Event)
      requires Valid()
      modifies this, registry
      ensures Valid()
      ensures registry.bounties == [Stamp(PrepareForPublish(d, location, now), now)] + old(registry.bounties)
      ensures event == BountyEvent(PrepareForPublish(d, location, now), now, showNumber)
      ensures registry.isConnected == old(registry.isConnected)
      ensures !showCreateForm
      ensures location == old(location) && selected == old(selected) && activeView == old(activeView)
      ensures showClaimModal == old(showClaimModal)
    {
      var b := PrepareForPublish(d, location, now);
      PublishKeepsConsistency(registry.bounties, b, now);
      event := registry.Publish(b, now, showNumber);
      showCreateForm := false;
    }

    /** `handleClaimBounty`: remember the clicked bounty and open the claim dialog. */
    method SelectBounty(b: Bounty)
      requires Valid()
      modifies this
      ensures Valid() && selected == Some(b) && showClaimModal
      ensures location == old(location) && activeView == old(activeView)
      ensures showCreateForm == old(showCreateForm)
    {
      selected := Some(b);
      showClaimModal := true;
    }

    /** The claim dialog's close callback. */
    method CloseClaimModal()
      requires Valid()
      modifies this
      ensures Valid() && !showClaimModal
      ensures location == old(location) && selected == old(selected) && activeView == old(activeView)
      ensures showCreateForm == old(showCreateForm)
    {
      showClaimModal := false;
    }

    /** The dialog's `onClaim`: claim the selected bounty's id with the payload, close the dialog. */
    method OnClaim(claim: ClaimPayload, now: int) returns (event: Event)
      requires Valid() && showClaimModal
      modifies this, registry
      ensures Valid() && !showClaimModal
      ensures registry.bounties == MarkClaimed(old(registry.bounties), old(selected).value.id, claim.claimer)
      ensures event == ClaimEvent(old(selected).value.id, now)
      ensures registry.isConnected == old(registry.isConnected)
      ensures location == old(location) && selected == old(selected) && activeView == old(activeView)
      ensures showCreateForm == old(showCreateForm)
    {
      MarkClaimedKeepsConsistency(registry.bounties, selected.value.id, claim.claimer);
      event := registry.Claim(selected.value.id, claim, now);
      showClaimModal := false;
    }
  }
}
