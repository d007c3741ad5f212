# GeoSats bounty lifecycle — a Dafny model

GeoSats is a React front end for GPS-gated bounties, with mocked back ends.

- A creator fills in a form. The page completes the record and the Nostr hook publishes it. Publishing puts the record first in an in-memory list and builds a kind-30001 event.
- A hunter opens the claim dialog. It measures the distance to the bounty, allows a claim only within 100 m, and asks for a non-blank puzzle answer when there is a puzzle. The claim is then forwarded to the hook, which marks the record claimed and builds a kind-30002 event.
- A mocked Lightning hook keeps a balance.
- Three views present the bounty list: a mock map, a feed of cards and a nearby list of the active bounties within 10 km.
- A Nostr panel in the sidebar logs in with a 64-character key and shows three mock events of its own. It never shows the bounty list.

This project models that logic in Dafny and proves what the code guarantees about it. It has one module per source file, plus two shared modules:

| module | source | form |
|---|---|---|
| `Js` | JavaScript runtime behaviour the code relies on | functions and lemmas |
| `Domain` | the shared records | datatypes |
| `UseNostr` | `src/hooks/useNostr.ts` | class `Registry` over a `seq<Bounty>`, pure helpers for the list updates and events |
| `ClaimBountyModal` | `src/components/ClaimBountyModal.tsx` | class `ClaimModal`, pure guard chain and payload |
| `CreateBountyForm` | `src/components/CreateBountyForm.tsx` | class `Form`, pure submit handler |
| `IndexPage` | `src/pages/Index.tsx` | class `Page` owning a `Registry`, pure list derivations |
| `UseLightning` | `src/hooks/useLightning.ts` | class `Wallet`, pure invoice and escrow-id builders |
| `BountyFeed` | `src/components/BountyFeed.tsx` | pure functions |
| `NostrFeedWidget` | `src/components/NostrFeedWidget.tsx` | class `Widget` (login machine), pure helpers |
| `BountyMap` | `src/components/BountyMap.tsx` | pure layout lemmas, class `MapView` for the click |

The runtime behaviour in `Js` is:
- `String.prototype.trim`, over the ECMAScript white-space and line-terminator set.
- `parseInt` with no radix: leading white space, an optional sign, a `0x` prefix, the longest digit run, and `NaN` when there are no digits.
- `String(n)` for integers.
- `Array.prototype.filter`.
- Addition in which `NaN` absorbs.

A reward is a `JsInt`, either an integer or `NaN`, because the form's `parseInt` can produce `NaN`.

Some things come from outside the model as parameters:
- **The haversine distance** is a function parameter `dist: (Coord, Coord) -> real`.
- **Number-to-text conversion** (`toString`, `toFixed`) is `showNumber: real -> string`, or is left out.
- **`parseFloat`** is `parseFloat: string -> real`.
- **`Date.now()`** is an integer parameter `now`. Each handler uses one reading for every clock call it makes.

The Nostr events are only logged by the code. In the model they are returned to the caller.

## What the code does not check

Each of these is what the code does, and the model proves it as it stands:

- **Claiming.** A claim goes through whatever the bounty's status. On an already-claimed bounty it overwrites `claimedBy` (`UseNostr.ReclaimOverwrites`). Nothing serialises concurrent claims.
- **Rewards.** The form checks only that the reward text is non-empty. `0` and `-10` are accepted and stored as those numbers (`CreateBountyForm.AnyIntegerRewardAccepted`). Reward text whose first character after the leading white space and an optional sign is not a digit is stored as `NaN`. The number input delivers such text for valid numbers like `.5` and `-.5` (`CreateBountyForm.NonNumericRewardStoredAsNaN`).
- **Escrow.** Creating a bounty locks no funds: the page never calls `lockFunds`. `lockFunds` deducts the amount without checking that the balance covers it, and always reports success. Nothing releases or refunds a lock.
- **Status.** The code only ever writes `active` and `claimed`, so `Status` has just those two values.

Two further observations, proved as lemmas:

- **Event `d` tag.** The bounty event's `d` tag carries the id the form stamped, not the id the hook stores. The two agree only when both clock readings fall in the same millisecond (`IndexPage.EventTagMatchesStoredIdIff`).
- **Claim-event address.** Kind 30002 lies in NIP-01's addressable range, but claim events carry no `d` tag. So all of them share one address (`UseNostr.ClaimEventsShareAddress`), and a relay following NIP-01 keeps only the latest claim per author.

## Model

| member | source | states |
|---|---|---|
| Js.TrimEmptyIffBlank | src/components/ClaimBountyModal.tsx:83 | `trim` yields the empty string exactly when every character is ECMAScript white space |
| Js.TrimIsInfix | src/components/ClaimBountyModal.tsx:83 | the trimmed text is a contiguous slice of the input; what was cut around it is all white space and its two ends are not white space |
| Js.TrimSlice | src/components/ClaimBountyModal.tsx:83 | the trimmed text is the slice of the input between its leading white space and the white space that ends it |
| Js.TrimEnds | src/components/ClaimBountyModal.tsx:83 | the trimmed text neither starts nor ends with white space |
| Js.Trim | src/components/ClaimBountyModal.tsx:83 | `String.prototype.trim`: drops the leading and then the trailing white space; its meaning is stated by `Js.TrimIsInfix` and `Js.TrimEmptyIffBlank` |
| Js.NatToString | src/hooks/useNostr.ts:62 | `Date.now().toString()` is a non-empty run of decimal digits with no leading zero |
| Js.IntToString | src/hooks/useLightning.ts:79 | `String(n)` for any integer: a minus sign before the magnitude's digits when negative; `Js.ParseIntOfIntToString` and `Js.IntToStringInjective` state what it means |
| Js.ParseIntOfIntToString | src/components/CreateBountyForm.tsx:51 | `parseInt` of an integer's decimal text, followed by anything that is not a digit or `x`, gives back that integer, negative numbers included |
| Js.ParseInt | src/components/CreateBountyForm.tsx:51 | `parseInt` of blank text is `NaN`; `Js.ParseIntOfIntToString` is its round trip with `Js.IntToString` |
| Js.ParseIntWithoutLeadingDigit | src/components/CreateBountyForm.tsx:51 | `parseInt` gives `NaN` when the first character after the leading white space and an optional sign is not a decimal digit |
| Js.Add | src/pages/Index.tsx:134 | `sum + b.reward`: `NaN` exactly when either operand is `NaN`, otherwise the sum of the two values |
| Js.JsIntToString | src/hooks/useNostr.ts:76 | `reward.toString()`: an integer's decimal text, or `NaN` |
| Js.IntToStringInjective | src/components/CreateBountyForm.tsx:50 | distinct integers have distinct decimal texts |
| Js.FilterMembers | src/pages/Index.tsx:46 | `filter` keeps exactly the elements that pass the test |
| Js.FilterCounts | src/pages/Index.tsx:46 | `filter` keeps each passing value exactly as often as it occurs in the input and drops every other value; with `Js.FilterIsSubsequence` this fixes the result |
| Js.Filter | src/pages/Index.tsx:46 | `Array.prototype.filter`: never longer than its input; `Js.FilterMembers`, `Js.FilterCounts` and `Js.FilterIsSubsequence` state which elements it keeps, how often and in what order |
| Js.FilterIsSubsequence | src/pages/Index.tsx:46 | `filter` keeps the original order: its result is a subsequence of the input |
| Js.FilterFilter | src/pages/Index.tsx:47-50 | filtering by `p` and then by `q` is filtering once by `p && q` |
| Domain.UnitFor | src/components/ClaimBountyModal.tsx:116-121 | a distance is shown in metres exactly when it is below 1 km, and in kilometres otherwise |
| UseNostr.SeedFacts | src/hooks/useNostr.ts:6-43 | the initial list has three records with ids "1", "2", "3"; all are active and unclaimed, each has a puzzle and a positive reward |
| UseNostr.Seeds | src/hooks/useNostr.ts:6-43 | three seed records; `UseNostr.SeedFacts` and `IndexPage.SeedTotal` state their ids, status, puzzles and rewards |
| UseNostr.Seconds | src/hooks/useNostr.ts:78 | `Math.floor(now / 1000)` is the whole number of seconds: `t*1000 <= now < t*1000 + 1000` |
| UseNostr.Stamp | src/hooks/useNostr.ts:60-65 | the stored record takes its id (the clock's decimal text) and `createdAt` from the clock, is active, and copies every other field from the input |
| UseNostr.BountyEvent | src/hooks/useNostr.ts:70-79 | kind 30001, addressable, tags `d` = the input's id, `location` = lat and lng, `reward`; `created_at` is the clock in whole seconds |
| UseNostr.BountyEventAddressesDiffer | src/hooks/useNostr.ts:74 | bounty events built from records with different ids have different NIP-01 addresses |
| UseNostr.ClaimEvent | src/hooks/useNostr.ts:95-103 | kind 30002 with tags `e` = the bounty id and `claim` = `success`; `created_at` in whole seconds |
| UseNostr.ClaimEventsShareAddress | src/hooks/useNostr.ts:96-101 | every claim event is addressable and has no `d` tag, so all claim events share one address |
| UseNostr.ClaimRecord | src/hooks/useNostr.ts:90 | the record becomes claimed by the given claimer, and every other field is kept |
| UseNostr.MarkClaimed | src/hooks/useNostr.ts:88-92 | keeps the list's length; `UseNostr.MarkClaimedAt` states its effect position by position |
| UseNostr.MarkClaimedAt | src/hooks/useNostr.ts:88-92 | after a claim, each record with the id is that record with status claimed and `claimedBy` = the claimer; every other record is unchanged at its position |
| UseNostr.MarkClaimedKeepsFixedFields | src/hooks/useNostr.ts:90 | a claim changes only status and `claimedBy`: id, title, location, reward, creator, puzzle and `createdAt` stay |
| UseNostr.MarkClaimedUnknownId | src/hooks/useNostr.ts:88-92 | a claim on an id that no record carries leaves the list identical |
| UseNostr.ReclaimOverwrites | src/hooks/useNostr.ts:88-92 | claiming an id twice is the same as claiming it once by the second claimer: no status check, `claimedBy` is overwritten |
| UseNostr.MarkClaimedKeepsConsistency | src/hooks/useNostr.ts:90 | claiming keeps `claimedBy` present on exactly the claimed records |
| UseNostr.PublishKeepsConsistency | src/hooks/useNostr.ts:60-67 | prepending a stamped record without `claimedBy` keeps that consistency |
| UseNostr.Registry.constructor | src/hooks/useNostr.ts:6-45 | the hook starts with the seed list and not connected |
| UseNostr.Registry.ConnectTimerFired | src/hooks/useNostr.ts:47-55 | the simulated relay connection sets the flag and leaves the list alone |
| UseNostr.Registry.Publish | src/hooks/useNostr.ts:57-82 | the new list is the stamped record followed by the old list, unchanged and in order (length grows by one); returns the bounty event |
| UseNostr.Registry.Claim | src/hooks/useNostr.ts:84-106 | the new list is the old list with every matching record marked claimed by the claimer; returns the claim event |
| ClaimBountyModal.Decide | src/components/ClaimBountyModal.tsx:74-90 | out of range is rejected as too far, whatever the answer; in range with a puzzle and a blank answer is rejected as puzzle required; otherwise accepted |
| ClaimBountyModal.AnswerContentIgnored | src/components/ClaimBountyModal.tsx:83 | any two non-blank answers get the same decision, and without a puzzle even an empty answer does |
| ClaimBountyModal.Payload | src/components/ClaimBountyModal.tsx:96-102 | the payload carries the bounty's id, claimer `anonymous`, the answer as typed, the last location fix or else the user location, and the clock |
| ClaimBountyModal.ClaimModal.constructor | src/components/ClaimBountyModal.tsx:13-28 | empty answer, no fix, not processing; with a user location the distance is measured and in range means at most 0.1 km |
| ClaimBountyModal.ClaimModal.ClaimButtonDisabled | src/components/ClaimBountyModal.tsx:258 | the button is disabled exactly when no distance of at most 0.1 km has been measured (processing never stays set, with the timer collapsed); `Submit` rejects whenever it is disabled |
| ClaimBountyModal.ClaimModal.UserLocationChanged | src/components/ClaimBountyModal.tsx:22-28 | a new user location re-measures; a missing one keeps the old reading |
| ClaimBountyModal.ClaimModal.LocationFix | src/components/ClaimBountyModal.tsx:49-53 | a fix is recorded and in range becomes exactly `dist(fix, bounty) <= 0.1`, the boundary included |
| ClaimBountyModal.ClaimModal.SetPuzzleAnswer | src/components/ClaimBountyModal.tsx:238 | typing replaces the answer and nothing else |
| ClaimBountyModal.ClaimModal.Submit | src/components/ClaimBountyModal.tsx:71-114 | with the button disabled the outcome is a rejection; a rejection (range first, then puzzle) emits no payload; an acceptance emits exactly the payload; location, distance and answer are untouched |
| CreateBountyForm.InitialForm | src/components/CreateBountyForm.tsx:15-23 | empty title, description, reward and puzzle; difficulty easy; no AI; the location is the user location if known, else empty text |
| CreateBountyForm.Truthy | src/components/CreateBountyForm.tsx:39 | a location field is falsy exactly when it is empty text or the number 0; `CreateBountyForm.ZeroCoordinateRejected` applies this to a 0 latitude |
| CreateBountyForm.ParseFloatField | src/components/CreateBountyForm.tsx:54-55 | a field filled from a number keeps that number; text goes to the supplied `parseFloat` |
| CreateBountyForm.HandleSubmit | src/components/CreateBountyForm.tsx:27-59 | any empty title, description or reward means "missing information"; only after that, a falsy lat or lng means "location required"; otherwise exactly one record with `parseInt` reward, creator `anonymous`, clock id, parsed coordinates and the other fields copied |
| CreateBountyForm.AnyIntegerRewardAccepted | src/components/CreateBountyForm.tsx:30 | a reward typed as any integer, zero or negative included, is accepted and read back as that integer |
| CreateBountyForm.NonNumericRewardStoredAsNaN | src/components/CreateBountyForm.tsx:30-51 | reward text like `.5` or `-.5` passes the presence check and the record is submitted with a `NaN` reward |
| CreateBountyForm.ZeroCoordinateRejected | src/components/CreateBountyForm.tsx:39 | a latitude of exactly 0 filled from the user location is falsy, so the form asks for a location |
| CreateBountyForm.Form.constructor | src/components/CreateBountyForm.tsx:15-23 | the form mounts with the initial data |
| CreateBountyForm.Form.SetTitle | src/components/CreateBountyForm.tsx:136 | replaces the title only; `useAI` stays false |
| CreateBountyForm.Form.SetDescription | src/components/CreateBountyForm.tsx:147 | replaces the description only |
| CreateBountyForm.Form.SetReward | src/components/CreateBountyForm.tsx:160 | replaces the reward text only |
| CreateBountyForm.Form.SetDifficulty | src/components/CreateBountyForm.tsx:168 | replaces the difficulty only |
| CreateBountyForm.Form.SetLat | src/components/CreateBountyForm.tsx:206-209 | replaces the latitude with the typed text, keeping the longitude |
| CreateBountyForm.Form.SetLng | src/components/CreateBountyForm.tsx:219-222 | replaces the longitude with the typed text, keeping the latitude |
| CreateBountyForm.Form.SetPuzzle | src/components/CreateBountyForm.tsx:260 | replaces the puzzle text only |
| CreateBountyForm.Form.Submit | src/components/CreateBountyForm.tsx:27-65 | submitting gives the handler's outcome; an accepted record never has `useAI` and is by `anonymous` |
| IndexPage.ActiveBounties | src/pages/Index.tsx:46 | exactly the active records, in list order (how often each is kept: `IndexPage.ActiveCounts`) |
| IndexPage.ActiveCounts | src/pages/Index.tsx:46 | the active list keeps every active record exactly as often as it occurs, and no inactive one |
| IndexPage.NearbyBounties | src/pages/Index.tsx:47-50 | empty without a location; otherwise exactly the active records within 10 km, a subsequence of the active list (how often each is kept: `IndexPage.NearbyCounts`) |
| IndexPage.NearbyInOnePass | src/pages/Index.tsx:47-50 | the nearby list is one filter of the whole list by "active and within 10 km" |
| IndexPage.NearbyCounts | src/pages/Index.tsx:47-50 | the nearby list keeps every active record within 10 km exactly as often as it occurs, and no other |
| IndexPage.NearbyBadgeShown | src/pages/Index.tsx:111 | the badge is shown exactly when there is a location and some active bounty is within 10 km of it |
| IndexPage.Listed | src/pages/Index.tsx:155-189 | every view lists only active bounties taken from the list |
| IndexPage.SumRewards | src/pages/Index.tsx:134 | a `NaN` accumulator stays `NaN` to the end of the fold; `IndexPage.SumRewardsIsSum` states its value |
| IndexPage.SumRewardsIsSum | src/pages/Index.tsx:134 | the `reduce` fold is `NaN` exactly when its start or some reward is `NaN`, and otherwise the arithmetic sum |
| IndexPage.TotalRewards | src/pages/Index.tsx:134 | the total of active rewards is `NaN` exactly when some active reward is `NaN`, else their sum (0 for none) |
| IndexPage.SeedTotal | src/pages/Index.tsx:134 | for the seed list the total is 17500 |
| IndexPage.ActiveAfterPublish | src/pages/Index.tsx:46 | a published record heads the active list, followed by the previous active list |
| IndexPage.TotalAfterPublish | src/pages/Index.tsx:134 | publishing adds the new reward to the total |
| IndexPage.ActiveAfterClaim | src/pages/Index.tsx:46 | after a claim the active list is the previous one without the records of that id |
| IndexPage.ClaimedNotListed | src/pages/Index.tsx:155-189 | after a claim on an id, no view lists a record with that id |
| IndexPage.PrepareForPublish | src/pages/Index.tsx:31-37 | the page's location, or (0, 0) when unknown, replaces the form's; status active, `createdAt` the clock, no `claimedBy` |
| IndexPage.FormLocationDiscarded | src/pages/Index.tsx:34 | what was typed as the location never reaches the stored record |
| IndexPage.EventTagMatchesStoredIdIff | src/pages/Index.tsx:31-37 | the event's `d` tag (the form's id) equals the stored id exactly when the form's and the page's clock readings are equal |
| IndexPage.Page.constructor | src/pages/Index.tsx:17-24 | map view, nothing selected, both dialogs closed, registry with the seed list |
| IndexPage.Page.LocationChanged | src/pages/Index.tsx:24 | a new location reading changes only the location |
| IndexPage.Page.SetActiveView | src/pages/Index.tsx:102 | switching tabs changes only the view |
| IndexPage.Page.SetCreateFormOpen | src/pages/Index.tsx:80 | opening or closing the form changes only that flag |
| IndexPage.Page.CreateBounty | src/pages/Index.tsx:31-39 | the registry's list becomes the completed record stamped and prepended; the form closes; the connection flag and the consistency of `claimedBy` are kept |
| IndexPage.Page.SelectBounty | src/pages/Index.tsx:41-44 | the clicked bounty is selected and the claim dialog opens |
| IndexPage.Page.CloseClaimModal | src/pages/Index.tsx:225 | closing the dialog changes only that flag |
| IndexPage.Page.OnClaim | src/pages/Index.tsx:228-231 | the selected bounty's id and the payload's claimer go to the registry's claim; the dialog closes; the connection flag is kept |
| UseLightning.MockInvoice | src/hooks/useLightning.ts:78-81 | the payment request starts with `lnbc` followed by the amount's decimal text; the hash is `mock_hash_` and the clock |
| UseLightning.MockPayment | src/hooks/useLightning.ts:47-51 | the mock response always reports success and a fee of 1, and its preimage is `mock_preimage_` followed by the clock's decimal text |
| UseLightning.EscrowId | src/hooks/useLightning.ts:104 | the id starts with `escrow_` and is longer than that prefix, the bounty id and the separator; `UseLightning.EscrowIdInjective` states that both parts can be recovered |
| UseLightning.InvoiceAmountRecoverable | src/hooks/useLightning.ts:79 | `parseInt` of the request after `lnbc` gives back the amount |
| UseLightning.EscrowIdInjective | src/hooks/useLightning.ts:104 | an escrow id determines both the bounty id and the clock reading it was made from |
| UseLightning.Wallet.constructor | src/hooks/useLightning.ts:6-7 | balance 25000, not connected |
| UseLightning.Wallet.ConnectTimerFired | src/hooks/useLightning.ts:23-27 | the simulated connection sets the flag only |
| UseLightning.Wallet.SendPayment | src/hooks/useLightning.ts:44-54 | 100 comes off the balance whatever the invoice; the response reports fee 1 and success |
| UseLightning.Wallet.RequestInvoice | src/hooks/useLightning.ts:75-83 | the balance is not touched; the invoice's amount reads back |
| UseLightning.Wallet.LockFunds | src/hooks/useLightning.ts:100-106 | the balance drops by exactly the amount with no sufficiency check (it can go negative); always success with the escrow id and amount |
| BountyFeed.FormatDistance | src/components/BountyFeed.tsx:9-17 | "Location unknown" exactly without a user location; otherwise metres exactly below 1 km |
| BountyFeed.FormatTimeAgo | src/components/BountyFeed.tsx:19-29 | whole days when at least a day has passed; else whole hours when at least an hour has; else whole minutes, each a floor |
| BountyFeed.TimeAgoCountReadsBack | src/components/BountyFeed.tsx:26-28 | the label's number reads back with `parseInt` as the chosen bucket's count |
| BountyFeed.ProgressWidth | src/components/BountyFeed.tsx:119 | the width always lies in [10, 100]; it is 100 - 10d between 0 and 9 km |
| BountyFeed.ProgressWidthAntitone | src/components/BountyFeed.tsx:119 | a farther bounty never gets a wider bar |
| BountyFeed.Render | src/components/BountyFeed.tsx:31-127 | the empty state exactly for an empty list; otherwise one card per bounty in order, with its own age and distance labels, the puzzle box exactly when it has a puzzle, and a bar exactly when the location is known |
| BountyFeed.CardFor | src/components/BountyFeed.tsx:44-124 | a card carries its own bounty, shows the puzzle box exactly when the bounty has a puzzle, and has a progress bar exactly when the user location is known |
| NostrFeedWidget.DerivedPublicKey | src/components/NostrFeedWidget.tsx:31 | the first 16 key characters followed by "..." |
| NostrFeedWidget.ShortPubkey | src/components/NostrFeedWidget.tsx:173 | at most the first 8 characters of the author key followed by "...", all of a shorter key |
| NostrFeedWidget.EventIcon | src/components/NostrFeedWidget.tsx:80-87 | the map pin exactly for kind 30001, the message icon for every other kind |
| NostrFeedWidget.WidgetTimeAgo | src/components/NostrFeedWidget.tsx:72-78 | "Just now" exactly below one hour, "1 hour ago" exactly in the second hour, otherwise the whole hours followed by " hours ago" |
| NostrFeedWidget.MockFeedLabels | src/components/NostrFeedWidget.tsx:35-60 | at login time the three mock events read "Just now", "1 hour ago" and "2 hours ago" |
| NostrFeedWidget.MockFeed | src/components/NostrFeedWidget.tsx:35-60 | three mock events with ids "1", "2", "3", all dated before the current clock; `NostrFeedWidget.MockFeedLabels` and `NostrFeedWidget.MockFeedHashtags` state what the panel shows for them |
| NostrFeedWidget.Hashtags | src/components/NostrFeedWidget.tsx:182 | exactly the tags whose first element is `t`, in order, each as often as it occurs |
| NostrFeedWidget.MockFeedHashtags | src/components/NostrFeedWidget.tsx:35-60 | the notes show `#bounty` and `#success`; the bounty event shows none |
| NostrFeedWidget.Widget.constructor | src/components/NostrFeedWidget.tsx:21-24 | logged out with every field empty |
| NostrFeedWidget.Widget.LoginDisabled | src/components/NostrFeedWidget.tsx:126 | the login button is disabled unless the key has exactly 64 characters; `NostrFeedWidget.Widget.Login` logs in exactly when it is enabled |
| NostrFeedWidget.Widget.SetPrivateKey | src/components/NostrFeedWidget.tsx:117 | typing replaces the key only |
| NostrFeedWidget.Widget.Login | src/components/NostrFeedWidget.tsx:28-63 | logs in exactly when the button is enabled (key length 64), deriving the public key and loading the three-event feed; any other length changes nothing |
| NostrFeedWidget.Widget.Logout | src/components/NostrFeedWidget.tsx:65-70 | logged out with key, public key and feed all emptied |
| BountyMap.LeftByResidue | src/components/BountyMap.tsx:43 | `left` is 20 + 15 times the index modulo 4 |
| BountyMap.TopByResidue | src/components/BountyMap.tsx:44 | `top` is 20 + 20 times the index modulo 3 |
| BountyMap.MarkerLeft | src/components/BountyMap.tsx:43 | the marker's left offset stays between 20 and 80 per cent; `BountyMap.LeftByResidue` fixes it by the index modulo 4 |
| BountyMap.MarkerTop | src/components/BountyMap.tsx:44 | the marker's top offset stays between 20 and 80 per cent; `BountyMap.TopByResidue` fixes it by the index modulo 3 |
| BountyMap.MarkerRange | src/components/BountyMap.tsx:43-44 | `left` is one of 20, 35, 50, 65 and `top` one of 20, 40, 60; index 0 sits at (20, 20) |
| BountyMap.MarkerPeriods | src/components/BountyMap.tsx:43-44 | `left` repeats every 4 indices and `top` every 3 |
| BountyMap.SamePositionIff | src/components/BountyMap.tsx:43-44 | two markers coincide exactly when their indices agree modulo 12 |
| BountyMap.MapView.constructor | src/components/BountyMap.tsx:7 | the map mounts with no bounty selected |
| BountyMap.MapView.ClickMarker | src/components/BountyMap.tsx:54-57 | the clicked bounty is selected and that same bounty is forwarded |

## Left out

- The haversine distance (`calculateDistance`, in three files) is floating-point trigonometry. It is the parameter `dist`.
- `src/hooks/useLocation.ts` is not part of this model. It is a browser geolocation wrapper. The position arrives as a parameter (`Page.LocationChanged`, `ClaimModal.LocationFix`).
- The create form's "use current location" callback is browser I/O. Its effect is the same as typing into the two coordinate fields (`SetLat`, `SetLng`).
- The form's random AI puzzle choice is nondeterministic. Its effect is the same as `SetPuzzle` with the chosen text. The `isGeneratingPuzzle` flag is not modelled.
- The WebLN branches of the Lightning hook are foreign calls, and so is its WebLN connection check.
- Timers, `console.log`, toasts, dialog open/close props and JSX rendering are left out. Each timer's effect happens at once.
  - `ClaimModal.Submit`: the two-second processing window is collapsed, so `isProcessing` is never observed true.
  - `onClose` after a claim is handled by the page's `OnClaim`.
- The events' JSON `content` and the mock feed's message texts are display text, so they are omitted.
- Number-to-text conversions are left out: the event's `toString` of coordinates, `toFixed` and `Math.round(dist*1000)`. Only the chosen unit is modelled, and the event takes the conversion as `showNumber`.
- The reward box is a browser number input, whose value is `""` unless the typed text is a valid number. The model's reward field (`Form.SetReward`) holds any text, so it also admits text such as `abc` that the browser never delivers; such text would take the `Missing Information` branch.
- `parseFloat` of typed coordinates is the parameter `parseFloat`. A `NaN` latitude cannot be represented in `real`.
- Rewards and balances are unbounded integers, not IEEE doubles. Precision loss above 2^53 is not modelled. A `NaN` amount passed to `lockFunds` is not modelled either: the amount is an `int`.
- String length is counted in Unicode scalar values, not UTF-16 code units. With characters outside the Basic Multilingual Plane this matters in two places: the 64-character key check, and the 16-character prefix that `DerivedPublicKey` takes with `substring(0, 16)`.
- Each handler reads the clock once. The code calls `Date.now()` separately for an id and its `createdAt`, which could differ by a millisecond.
- `NostrFeedWidget.Widget.SetPrivateKey` and `Login` require being logged out. The key box and the login button are rendered only then (lines 104-134).
- The widget runs its own instance of `useNostr`, with its own seed list and its own timer, apart from the page's registry. That timer is what `Registry.ConnectTimerFired` models.
- The page's "Your Location" card and `balance || 0` are display text, so they are left out.
