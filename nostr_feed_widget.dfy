/**
 * The Nostr feed side panel: a two-state login machine over four state fields, a mock
 * feed of three events filled in at login, and the pure helpers that label an event
 * with its age, its icon and its `t` tags. Event contents are not modelled; the clock
 * is the parameter `now`.
 */
module NostrFeedWidget {
  import opened Js

  /** The key length `handleLogin` and the button insist on. */
  const PrivateKeyLength: nat := 64

  /** How many leading key characters the shown public key keeps. */
  const PublicKeyPrefix: nat := 16

  /** A feed entry; `createdAt` is in milliseconds here, not seconds. */
  datatype FeedEvent = FeedEvent(id: string, createdAt: int, pubkey: string, kind: int, tags: seq<seq<string>>)

  /** The three events shown after a login at time `now`. */
  function MockFeed(now: int): (r: seq<FeedEvent>)
    ensures |r| == 3 && r[0].id == "1" && r[1].id == "2" && r[2].id == "3"
    ensures forall i | 0 <= i < |r| :: r[i].createdAt < now
  {
    [ FeedEvent("1", now - 1800000, "user123", 1, [["t", "bounty"], ["location", "san-francisco"]]),
      FeedEvent("2", now - 3600000, "explorer456", 1, [["t", "success"], ["location", "new-york"]]),
      FeedEvent("3", now - 7200000, "creator789", 30001, [["d", "bounty_3"], ["reward", "10000"], ["location", "hollywood"]]) ]
  }

  /** `privateKey.substring(0, 16) + '...'`. */
  function DerivedPublicKey(privateKey: string): (pk: string)
    requires |privateKey| >= PublicKeyPrefix
    ensures |pk| == PublicKeyPrefix + 3 && pk[..PublicKeyPrefix] == privateKey[..PublicKeyPrefix]
    ensures pk[PublicKeyPrefix..] == "..."
  {
    privateKey[..PublicKeyPrefix] + "..."
  }

  /** `pubkey.substring(0, 8)` followed by "...": substring stops early on a short key. */
  function ShortPubkey(pubkey: string): (r: string)
    ensures |r| >= 3 && r[|r| - 3..] == "..."
    ensures var kept := r[..|r| - 3];
      |kept| == (if |pubkey| < 8 then |pubkey| else 8) && kept == pubkey[..|kept|]
  {
    var kept := if |pubkey| < 8 then pubkey else pubkey[..8];
    assert (kept + "...")[..|kept|] == kept;
    kept + "..."
  }

  datatype Icon = MapPinIcon | MessageIcon

  /** `getEventIcon`: the map pin for kind 30001 and the message icon for every other kind. */
  function EventIcon(kind: int): (i: Icon)
    ensures i == MapPinIcon <==> kind == 30001
    ensures i == MessageIcon <==> kind != 30001
  {
    if kind == 30001 then MapPinIcon else MessageIcon
  }

  const HourMs: int := 3600000

  /** This widget's `formatTimeAgo`: whole hours only, with "Just now" below one hour. */
  function WidgetTimeAgo(now: int, timestamp: int): (r: string)
    ensures var diff := now - timestamp;
      && (diff < HourMs <==> r == "Just now")
      && (HourMs <= diff < 2 * HourMs <==> r == "1 hour ago")
      && (diff >= 2 * HourMs ==> r == IntToString(diff / HourMs) + " hours ago")
  {
    var hours := (now - timestamp) / HourMs;
    if hours < 1 then "Just now"
    else if hours == 1 then "1 hour ago"
    else IntToString(hours) + " hours ago"
  }

  /** Shown at the moment of login, the mock feed reads half an hour, one hour and two hours old. */
  lemma MockFeedLabels(now: int)
    ensures var f := MockFeed(now);
      && WidgetTimeAgo(now, f[0].createdAt) == "Just now"
      && WidgetTimeAgo(now, f[1].createdAt) == "1 hour ago"
      && WidgetTimeAgo(now, f[2].createdAt) == "2 hours ago"
  {
    var f := MockFeed(now);
    assert now - f[2].createdAt == 2 * HourMs;
    assert IntToString(2) == "2";
  }

  /** `tag[0] === 't'`; `tag[0]` of an empty tag is undefined and fails the test. */
  predicate IsHashtag(tag: seq<string>) {
    |tag| > 0 && tag[0] == "t"
  }

  /** `tags.filter(tag => tag[0] === 't')`: exactly the `t` tags, in order. */
  function Hashtags(tags: seq<seq<string>>): (r: seq<seq<string>>)
    ensures IsSubsequence(r, tags)
    ensures forall i | 0 <= i < |r| :: IsHashtag(r[i])
    ensures forall i | 0 <= i < |tags| :: IsHashtag(tags[i]) ==> tags[i] in r
    ensures forall t :: multiset(r)[t] == if IsHashtag(t) then multiset(tags)[t] else 0
  {
    FilterMembers(tags, IsHashtag);
    FilterCounts(tags, IsHashtag);
    FilterIsSubsequence(tags, IsHashtag);
    Filter(tags, IsHashtag)
  }

  /** The mock feed's hashtags: "bounty" and "success" on the notes, none on the bounty event. */
  lemma MockFeedHashtags(now: int)
    ensures var f := MockFeed(now);
      Hashtags(f[0].tags) == [["t", "bounty"]] && Hashtags(f[1].tags) == [["t", "success"]]
      && Hashtags(f[2].tags) == []
  {
    var f := MockFeed(now);
    var t0, t1, t2 := f[0].tags, f[1].tags, f[2].tags;
    assert IsHashtag(t0[0]) && !IsHashtag(t0[1]) && t0[1..][1..] == [];
    assert IsHashtag(t1[0]) && !IsHashtag(t1[1]) && t1[1..][1..] == [];
    assert !IsHashtag(t2[0]) && !IsHashtag(t2[1]) && !IsHashtag(t2[2]) && t2[1..][1..][1..] == [];
  }

  /** The widget's state. */
  class Widget {
    var isLoggedIn: bool
    var privateKey: string
    var publicKey: string
    var feed: seq<FeedEvent>

    /**
     * Logged in: the key has 64 characters, the public key is derived from it and the
     * feed holds three events. Logged out: no public key and an empty feed.
     */
    ghost predicate Valid()
      reads this
    {
      if isLoggedIn then
        |privateKey| == PrivateKeyLength && |privateKey| >= PublicKeyPrefix
        && publicKey == DerivedPublicKey(privateKey) && |feed| == 3
      else
        publicKey == "" && feed == []
    }

    /** The login button is disabled unless the key has exactly 64 characters. */
    function LoginDisabled(): (disabled: bool)
      reads this
    {
      |privateKey| != PrivateKeyLength
    }

    constructor()
      ensures Valid() && !isLoggedIn && privateKey == "" && publicKey == "" && feed == []
    {
      isLoggedIn := false;
      privateKey := "";
      publicKey := "";
      feed := [];
    }

    /** Typing in the key box, which is only shown while logged out. */
    method SetPrivateKey(key: string)
      requires Valid() && !isLoggedIn
      modifies this
      ensures Valid() && privateKey == key && !isLoggedIn
      ensures publicKey == old(publicKey) && feed == old(feed)
    {
      privateKey := key;
    }

    /**
     * `handleLogin`, reachable only while logged out: a key of exactly 64 characters (of
     * any kind; nothing checks that it is hex) logs in; any other length changes nothing.
     */
    method Login(now: int)
      requires Valid() && !isLoggedIn
      modifies this
      ensures Valid() && privateKey == old(privateKey)
      ensures isLoggedIn <==> !old(LoginDisabled())
      ensures isLoggedIn ==> publicKey == DerivedPublicKey(privateKey) && feed == MockFeed(now)
      ensures !isLoggedIn ==> publicKey == old(publicKey) && feed == old(feed)
    {
      if |privateKey| == PrivateKeyLength {
        publicKey := DerivedPublicKey(privateKey);
        isLoggedIn := true;
        feed := MockFeed(now);
      }
    }

    /** `handleLogout`: every field back to its initial value, the key included. */
    method Logout()
      requires Valid()
      modifies this
      ensures Valid() && !isLoggedIn && privateKey == "" && publicKey == "" && feed == []
    {
      isLoggedIn := false;
      privateKey := "";
      publicKey := "";
      feed := [];
    }
  }
}
