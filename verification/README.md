# Match record and friend requests

A Dafny model of two pieces of sequential logic in the backend of a
two-player paddle game with a social layer.

**The in-memory match record** (`MemoryMatch` module, `memory_match.dfy`).
`Seconds`, `Minutes` and `Hours` turn durations into milliseconds. A
`MemoryMatch` object holds the match's identity and players, the two scores,
the two connection flags, the stage (`AwaitingPlayers`, `Preparation`,
`Ongoing`, `Finished`, `Canceled`), an optional stage-change observer and the
kinematic state (the two paddle positions and the ball). Its methods are the
constructor, `UpdateStage`, `Init`, `ResetPositions` and `Update`. `Update`
moves both paddles one unit per call and turns them around at the top and
bottom collision edges. The simulation rules are a global module in the
program; here they are a `Rules` value given to the constructor. The kinematic
state is a record owned by the match. The object invariant `Valid` says three
things: the field has positive height, the direction is +1 or -1, and the
two paddles are level. Every method keeps it. `Update` also keeps the paddles
between the edges. The pure functions `Bounce` (one step's direction) and
`Drift` (n steps) support lemmas about any number of updates.

**Friend requests** (`FriendRequests` module, `friend_requests.dfy`). Each
user record has a `friends` list and a `friendRequests` list of user ids.
`friendRequests` holds the users whose request to this user is still pending.
The operations are `request`, `cancelRequest`, `acceptRequest`,
`updateRequest` and `pendingRequest`. The first four look users up, check
their guards and then edit one or two records. A failed guard returns an
error and changes nothing. Each of these four has a specification function on
a `map<UserId, User>` (`RequestOutcome`, `CancelOutcome`, `AcceptOutcome`,
`UpdateOutcome`), and the lemmas are about these functions. The service class
`FriendRequestsService` holds the store in a field. Its methods for the four
do the lookups, guards, list edits and write-backs step by step, and each is
proved to produce exactly what its specification function says.
`pendingRequest` only looks the caller up and checks which list is asked for;
it changes nothing, and its method `PendingRequest` states its outcome
directly. The methods also
keep `Consistent`: nobody befriends or requests themselves, no list holds an
id twice, and friendship between stored users goes both ways.

Two behaviours of the code are kept as written:

- `updateStage` accepts any stage, including a move out of `FINISHED` or
  `CANCELED`.
- `update` is an autonomous back-and-forth movement of both paddles. It is
  not a per-player command path with clamping.

## Model

| member | source | states |
|---|---|---|
| MemoryMatch.Seconds | back/src/match-manager/model/MemoryMatch.ts:5-7 | the result is a whole number of thousands of milliseconds, and dividing by 1000 gives back the seconds |
| MemoryMatch.Minutes | back/src/match-manager/model/MemoryMatch.ts:9-11 | a minute is 60000 ms, the same as `Seconds(60 * mins)` |
| MemoryMatch.Hours | back/src/match-manager/model/MemoryMatch.ts:13-15 | an hour is 3600000 ms, the same as `Minutes(60 * h)` and `Seconds(3600 * h)` |
| MemoryMatch.Bounce | back/src/match-manager/model/MemoryMatch.ts:72-76 | direction +1 at or above the top edge, -1 at or below the bottom edge, unchanged in between; a ±1 direction stays ±1; a paddle between the edges is still between them after one step |
| MemoryMatch.DriftStaysInside | back/src/match-manager/model/MemoryMatch.ts:71-80 | after any number of updates, a paddle that started between the edges is still between them and its direction is ±1 |
| MemoryMatch.DriftEntersField | back/src/match-manager/model/MemoryMatch.ts:71-80 | a paddle that starts outside the edges is back between them once as many updates have passed as its distance from the field |
| MemoryMatch.MemoryMatch.constructor | back/src/match-manager/model/MemoryMatch.ts:28-49 | a new match is in stage AWAITING_PLAYERS with both scores 0, both players disconnected, both paddles at the start position, the ball at its start point, direction +1 and no observer; it satisfies the invariant when the rules are valid |
| MemoryMatch.MemoryMatch.UpdateStage | back/src/match-manager/model/MemoryMatch.ts:51-54 | the stage becomes the given one; a registered observer is notified exactly once with it, and is not notified when none is registered; nothing else changes |
| MemoryMatch.MemoryMatch.Init | back/src/match-manager/model/MemoryMatch.ts:56-59 | the kinematic state becomes the start state (paddles at the start position, ball at its start point) |
| MemoryMatch.MemoryMatch.ResetPositions | back/src/match-manager/model/MemoryMatch.ts:61-68 | both paddles are set to the start position and the ball to its start point; scores, stage, flags and direction are untouched; the invariant is kept |
| MemoryMatch.MemoryMatch.Update | back/src/match-manager/model/MemoryMatch.ts:70-80 | the direction becomes `Bounce` of the old position and direction; both paddles move by it, so their difference is kept; the ball and every other field are unchanged; the invariant and the paddles-inside property are kept |
| FriendRequests.Without | back/src/users/friend_requests/friend_requests.service.ts:112-113 | the filter removes every occurrence of the id and nothing else: the same elements minus that id, in their original order (a subsequence), unchanged when the id is absent and shorter when it is present |
| FriendRequests.WithoutDistributes | back/src/users/friend_requests/friend_requests.service.ts:112-113 | filtering a concatenation is the concatenation of the filtered parts |
| FriendRequests.RequestOutcome | back/src/users/friend_requests/friend_requests.service.ts:73-93 | fails (with the error of the first failing guard) exactly when a user is missing, the request targets oneself, the requester is already a friend of the target, or already has a pending request there; otherwise appends the requester at the end of the target's requests and changes no other list or user |
| FriendRequests.CancelOutcome | back/src/users/friend_requests/friend_requests.service.ts:97-119 | fails exactly when a user is missing, the target is oneself, or the target holds no request from the caller; otherwise removes every occurrence of the caller from the target's requests, keeping the order of the rest, and changes nothing else |
| FriendRequests.AcceptOutcome | back/src/users/friend_requests/friend_requests.service.ts:123-153 | fails exactly when a user is missing, the target is oneself, the target is already my friend, or I hold no request from the target; otherwise removes the target from my requests, appends the target to my friends and me to the target's friends, so friendship holds both ways, and changes no one else |
| FriendRequests.UpdateOutcome | back/src/users/friend_requests/friend_requests.service.ts:163-177 | a missing caller, then a self-targeted answer (with updateRequest's own message), are rejected first; for two different users 'ACCEPTED' is exactly acceptRequest(me, target) and 'DECLINED' is exactly cancelRequest(me, target); any other status fails, with the invalid-parameter error once both users exist and differ |
| FriendRequests.UpdateOutcomeIntended | back/src/users/friend_requests/friend_requests.service.ts:173-174 | corrected decline: 'DECLINED' succeeds exactly when I hold a request from the target, removes it from my requests and changes no one else; it is rejected as not pending whenever accept would be |
| FriendRequests.RequestThenCancelRestores | back/src/users/friend_requests/friend_requests.service.ts:84-113 | a successful request followed by its cancellation succeeds and gives back the original store |
| FriendRequests.RequestTwiceRejected | back/src/users/friend_requests/friend_requests.service.ts:84-87 | repeating a successful request is rejected as already sent |
| FriendRequests.CancelTwiceRejected | back/src/users/friend_requests/friend_requests.service.ts:107-113 | repeating a successful cancellation is rejected as not pending |
| FriendRequests.AcceptIsFinal | back/src/users/friend_requests/friend_requests.service.ts:81-146 | after an accept, accepting again from either side and requesting from either side are all rejected as already friends |
| FriendRequests.RequestThenAcceptMakesFriends | back/src/users/friend_requests/friend_requests.service.ts:87-146 | the request A sends to B can then be accepted by B; afterwards they are friends both ways and B's requests are as before A's request |
| FriendRequests.RequestKeepsConsistent | back/src/users/friend_requests/friend_requests.service.ts:76-87 | request keeps the store consistent (no self links, no duplicates, symmetric friendship) |
| FriendRequests.CancelKeepsConsistent | back/src/users/friend_requests/friend_requests.service.ts:107-113 | cancel keeps the store consistent |
| FriendRequests.AcceptKeepsConsistent | back/src/users/friend_requests/friend_requests.service.ts:133-146 | accept keeps the store consistent; in particular it never adds a duplicate friend on the target's side |
| FriendRequests.DeclineOfReceivedRequestIsRejected | back/src/users/friend_requests/friend_requests.service.ts:173-174 | on a store where user 1 holds a request from user 2, accept by 1 succeeds but 'DECLINED' by 1 is rejected as not pending; the corrected decline removes the request |
| FriendRequests.DeclineAsWrittenRejectsReceivedRequests | back/src/users/friend_requests/friend_requests.service.ts:173-174 | on every store where I hold a request from the target, we are not friends, and the target holds none from me, accept succeeds but 'DECLINED' as written is rejected as not pending, while the corrected decline succeeds |
| FriendRequests.DeclineAsWrittenRemovesSentRequest | back/src/users/friend_requests/friend_requests.service.ts:173-174 | when each of the two holds a request from the other, 'DECLINED' as written succeeds but withdraws the request I sent, while the one I received stays pending; the corrected decline removes the received one |
| FriendRequests.RequestThenIntendedDeclineRestores | back/src/users/friend_requests/friend_requests.service.ts:174 | declining (corrected) a request just received gives back the store from before it was sent |
| FriendRequests.FriendRequestsService.constructor | back/src/users/friend_requests/friend_requests.service.ts:11-15 | the service starts on the given store of users |
| FriendRequests.FriendRequestsService.FindUserById | back/src/users/friend_requests/friend_requests.service.ts:74-79 | the lookup succeeds exactly when the id is stored and then gives the stored record; otherwise it reports that user as not found |
| FriendRequests.FriendRequestsService.Save | back/src/users/friend_requests/friend_requests.service.ts:93 | storing a record replaces that user's record and no other |
| FriendRequests.FriendRequestsService.Request | back/src/users/friend_requests/friend_requests.service.ts:73-95 | the store afterwards is RequestOutcome's, or unchanged with its error; the consistency invariant is kept |
| FriendRequests.FriendRequestsService.CancelRequest | back/src/users/friend_requests/friend_requests.service.ts:97-121 | the store afterwards is CancelOutcome's, or unchanged with its error; the consistency invariant is kept |
| FriendRequests.FriendRequestsService.AcceptRequest | back/src/users/friend_requests/friend_requests.service.ts:123-161 | the store afterwards is AcceptOutcome's, or unchanged with its error; on success the reply is my friend list read back after the update; the consistency invariant is kept |
| FriendRequests.FriendRequestsService.UpdateRequest | back/src/users/friend_requests/friend_requests.service.ts:163-177 | the store afterwards is UpdateOutcome's (code as written), or unchanged with its error; the reply is accept's or cancel's; the consistency invariant is kept |
| FriendRequests.FriendRequestsService.PendingRequest | back/src/users/friend_requests/friend_requests.service.ts:179-187 | fails when the user is missing or the kind is neither 'sent' nor 'received'; otherwise it selects the sent or received list; the store is not changed |

## Left out

- The SQL helpers that list sent and received pending requests (friend_requests.service.ts:17-71) are left out. Their join-table orientation cannot be seen. `request`, `cancelRequest` and `pendingRequest` therefore answer with a `SentPending` or `ReceivedPending` tag that stands for the list the database would return.
- Logging, and the database write behind `usersService.update`, are left out. A write is modelled as storing the new user record (`Save`).
- `findUserById` is not part of this model beyond being a lookup that fails on a missing id. Its body is not available, and the exact exception it raises is not known.
- Removing the two-factor fields from the friends returned by `acceptRequest` (lines 155-160) is left out. Friends are user ids here, so the reply is the list of friend ids.
- User records are lists of ids, not loaded entity objects. Re-fetching a user before appending it to a list therefore adds nothing to the model. Any aliasing between loaded records is not modelled.
- The service operations are modelled as if calls never interleave. In the program they are asynchronous: each reads records, waits, and writes them back later. Two overlapping calls can both pass a guard before either writes, so two `request` calls can append the same id twice. Two `acceptRequest` calls by one user can each save their own copy of that user, so one of the updates is lost. The consistency invariant the methods keep is therefore proved only for calls that run one after another.
- Error messages are reduced to error kinds. The four self-target messages keep separate kinds (`CannotAddSelf`, `CannotCancelSelf`, `CannotAcceptSelf`, `CannotAnswerSelf`); the message texts themselves are not modelled.
- The HTTP controller, the front-end clients and the UI are left out. They only forward calls or do network I/O.
- MemoryMatch.MemoryMatch.Init: the fresh `MatchState` object's own defaults (its constructor is not available) are not modelled. Only the fields that `resetPositions` then sets are kept, so `Init` has the same effect as `ResetPositions`. `MatchState` is a record owned by the match, so sharing of the state object is not modelled.
- The stage-change callback's own effects are not modelled. The model records only that the callback is called, and with which stage (`stageNotifications`). Registering the callback is a field assignment made by other code (`hasStageObserver`).
- The `starts_at`/`ends_at` fields are left out. They are declared but never set by the match record.
- The players are user ids, not full user profiles.
- Durations and positions are unbounded integers. The program uses floating-point numbers, which agree with this for integer values in the safe integer range. Fractional arguments to the duration helpers are not modelled. The paddles-inside property of `Update`, `DriftStaysInside` and `DriftEntersField` relies on integer positions and integer rule values: a paddle at half a unit inside the top edge and heading towards it does not turn, so one step carries it half a unit past the edge.
- Matchmaking, the match registry, tick scheduling, ball physics, scoring, power-ups and forfeit timers are left out. None of them is implemented by the match record or the friend-request service.

## Findings

| source | as written | input that shows it | evidently intended | confidence | as-written member | corrected member |
|---|---|---|---|---|---|---|
| back/src/users/friend_requests/friend_requests.service.ts:174 | `updateRequest(me, target, 'DECLINED')` calls `cancelRequest(me, target)`, which looks for `me` in the target's pending requests, i.e. a request that `me` sent. 'ACCEPTED' instead looks for `target` in the requests of `me`, i.e. a request that `me` received. When both hold a request from each other, 'DECLINED' succeeds but removes the request `me` sent and leaves the received one (DeclineAsWrittenRemovesSentRequest) | user 1 holds a pending request from user 2 (`friendRequests == [2]`) and user 2 holds none: 'ACCEPTED' by 1 succeeds, but 'DECLINED' by 1 fails with "no pending friend request" | 'DECLINED' removes `target` from the pending requests of `me`, i.e. `cancelRequest(target, me)` | medium, not executed | FriendRequests.DeclineAsWrittenRejectsReceivedRequests | FriendRequests.UpdateOutcomeIntended |
