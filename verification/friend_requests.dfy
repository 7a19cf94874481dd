/**
  Friend requests between users. Each user record keeps two lists of user ids:
  `friends`, and `friendRequests`, the users who have asked to become its
  friend and are still waiting. `request`, `cancelRequest`, `acceptRequest` and
  `updateRequest` first look both users up and check their guards; a failed
  guard is an error and changes nothing, otherwise the operation edits the
  lists of one or two records and writes them back. `pendingRequest` only looks
  the caller up and checks which list is asked for.

  The four editing operations are given twice: as specification functions on a
  map of user records (`RequestOutcome`, `CancelOutcome`, `AcceptOutcome`,
  `UpdateOutcome`), about
  which the lemmas speak, and as the service object `FriendRequestsService`
  whose methods perform the lookups, guards and in-place edits step by step
  and are proved to produce what the specification functions say.
 */
module FriendRequests {

  type UserId = int

  datatype User = User(friends: seq<UserId>, friendRequests: seq<UserId>)

  /** All users, by id. */
  type Store = map<UserId, User>

  /**
    The rejections of the service (each a bad request, except a missing user).
    Each operation rejects a request aimed at oneself with its own message.
   */
  datatype Error =
    | UserNotFound(id: UserId)
    | CannotAddSelf       // request
    | CannotCancelSelf    // cancelRequest
    | CannotAcceptSelf    // acceptRequest
    | CannotAnswerSelf    // updateRequest
    | AlreadyFriends
    | RequestAlreadySent
    | NoPendingRequest
    | InvalidStatus
    | InvalidType

  datatype Result<T> = Ok(value: T) | Err(error: Error)

  /**
    What a successful call answers. `SentPending` and `ReceivedPending` stand
    for the lists of pending requests the caller has sent or received, which
    the service reads back from the database; `FriendList` is the caller's
    friend list after an accepted request.
   */
  datatype Reply = SentPending | ReceivedPending | FriendList(ids: seq<UserId>)

  // ---------------------------------------------------------------------------
  // List helpers
  // ---------------------------------------------------------------------------

  /**
    `r` can be obtained from `xs` by deleting entries: the remaining entries
    keep their order. (Matching the heads greedily is complete.)
   */
  ghost predicate IsSubsequence(r: seq<UserId>, xs: seq<UserId>)
    decreases xs
  {
    if r == [] then true
    else if xs == [] then false
    else if r[0] == xs[0] then IsSubsequence(r[1..], xs[1..])
    else IsSubsequence(r, xs[1..])
  }

  /** Every id occurs at most once in `xs`. */
  ghost predicate NoDuplicates(xs: seq<UserId>) {
    forall y :: multiset(xs)[y] <= 1
  }

  /**
    `xs` without any occurrence of `x`: the `filter` with which the service
    removes a user from a list.
   */
  function Without(xs: seq<UserId>, x: UserId): (r: seq<UserId>)
    ensures x !in r
    ensures forall y :: y in r <==> y in xs && y != x
    ensures multiset(r) == multiset(xs)[x := 0]
    ensures IsSubsequence(r, xs)
    ensures x !in xs ==> r == xs
    ensures x in xs ==> |r| < |xs|
  {
    if xs == [] then []
    else
      assert xs == [xs[0]] + xs[1..];
      if xs[0] == x then Without(xs[1..], x)
      else [xs[0]] + Without(xs[1..], x)
  }

  /** Filtering distributes over concatenation. */
  lemma {:induction false} WithoutDistributes(a: seq<UserId>, b: seq<UserId>, x: UserId)
    ensures Without(a + b, x) == Without(a, x) + Without(b, x)
    decreases a
  {
    if a == [] {
      assert a + b == b;
    } else {
      assert (a + b)[0] == a[0];
      assert (a + b)[1..] == a[1..] + b;
      WithoutDistributes(a[1..], b, x);
    }
  }

  // ---------------------------------------------------------------------------
  // Store predicates
  // ---------------------------------------------------------------------------

  /** `s'` has the same users as `s`, and only those in `changed` differ. */
  ghost predicate OnlyChanged(s: Store, s': Store, changed: set<UserId>) {
    s'.Keys == s.Keys && forall u :: u in s && u !in changed ==> s'[u] == s[u]
  }

  /**
    The shape the guards of the service keep: nobody is their own friend or
    has a request from themselves, no list holds an id twice, and friendship
    between two stored users goes both ways.
   */
  ghost predicate Consistent(s: Store) {
    (forall u :: u in s ==> u !in s[u].friends && u !in s[u].friendRequests)
    && (forall u :: u in s ==> NoDuplicates(s[u].friends) && NoDuplicates(s[u].friendRequests))
    && (forall u, v :: u in s && v in s && v in s[u].friends ==> u in s[v].friends)
  }

  // ---------------------------------------------------------------------------
  // The operations on the store
  // ---------------------------------------------------------------------------

  /** `me` asks `target` to become friends. */
  function RequestOutcome(s: Store, me: UserId, target: UserId): (r: Result<Store>)
    ensures me !in s ==> r == Err(UserNotFound(me))
    ensures me in s && me == target ==> r == Err(CannotAddSelf)
    ensures me in s && me != target && target !in s ==> r == Err(UserNotFound(target))
    ensures me in s && me != target && target in s && me in s[target].friends ==> r == Err(AlreadyFriends)
    ensures me in s && me != target && target in s && me !in s[target].friends && me in s[target].friendRequests ==>
      r == Err(RequestAlreadySent)
    ensures r.Err? <==>
      me !in s || me == target || target !in s
      || me in s[target].friends || me in s[target].friendRequests
    ensures r.Ok? ==>
      OnlyChanged(s, r.value, {target})
      && r.value[target].friendRequests == s[target].friendRequests + [me]
      && r.value[target].friends == s[target].friends
  {
    if me !in s then Err(UserNotFound(me))
    else if me == target then Err(CannotAddSelf)
    else if target !in s then Err(UserNotFound(target))
    else if me in s[target].friends then Err(AlreadyFriends)
    else if me in s[target].friendRequests then Err(RequestAlreadySent)
    else
      var t := s[target];
      Ok(s[target := t.(friendRequests := t.friendRequests + [me])])
  }

  /** `me` withdraws the request it sent to `target`. */
  function CancelOutcome(s: Store, me: UserId, target: UserId): (r: Result<Store>)
    ensures me !in s ==> r == Err(UserNotFound(me))
    ensures me in s && me == target ==> r == Err(CannotCancelSelf)
    ensures me in s && me != target && target !in s ==> r == Err(UserNotFound(target))
    ensures me in s && me != target && target in s && me !in s[target].friendRequests ==>
      r == Err(NoPendingRequest)
    ensures r.Err? <==>
      me !in s || me == target || target !in s || me !in s[target].friendRequests
    ensures r.Ok? ==>
      OnlyChanged(s, r.value, {target})
      && r.value[target].friendRequests == Without(s[target].friendRequests, me)
      && me !in r.value[target].friendRequests
      && |r.value[target].friendRequests| < |s[target].friendRequests|
      && r.value[target].friends == s[target].friends
  {
    if me !in s then Err(UserNotFound(me))
    else if me == target then Err(CannotCancelSelf)
    else if target !in s then Err(UserNotFound(target))
    else if me !in s[target].friendRequests then Err(NoPendingRequest)
    else
      var t := s[target];
      Ok(s[target := t.(friendRequests := Without(t.friendRequests, me))])
  }

  /** `me` accepts the request it received from `target`. */
  function AcceptOutcome(s: Store, me: UserId, target: UserId): (r: Result<Store>)
    ensures me !in s ==> r == Err(UserNotFound(me))
    ensures me in s && me == target ==> r == Err(CannotAcceptSelf)
    ensures me in s && me != target && target !in s ==> r == Err(UserNotFound(target))
    ensures me in s && me != target && target in s && target in s[me].friends ==> r == Err(AlreadyFriends)
    ensures me in s && me != target && target in s && target !in s[me].friends && target !in s[me].friendRequests ==>
      r == Err(NoPendingRequest)
    ensures r.Err? <==>
      me !in s || me == target || target !in s
      || target in s[me].friends || target !in s[me].friendRequests
    ensures r.Ok? ==>
      OnlyChanged(s, r.value, {me, target})
      && r.value[me].friendRequests == Without(s[me].friendRequests, target)
      && r.value[me].friends == s[me].friends + [target]
      && r.value[target].friends == s[target].friends + [me]
      && r.value[target].friendRequests == s[target].friendRequests
    ensures r.Ok? ==>
      target in r.value[me].friends && me in r.value[target].friends
      && target !in r.value[me].friendRequests
  {
    if me !in s then Err(UserNotFound(me))
    else if me == target then Err(CannotAcceptSelf)
    else if target !in s then Err(UserNotFound(target))
    else if target in s[me].friends then Err(AlreadyFriends)
    else if target !in s[me].friendRequests then Err(NoPendingRequest)
    else
      var u := s[me];
      var t := s[target];
      var s1 := s[me := u.(friendRequests := Without(u.friendRequests, target),
                           friends := u.friends + [target])];
      Ok(s1[target := t.(friends := t.friends + [me])])
  }

  /**
    `me` answers `target` with `status`, as the code is written: 'ACCEPTED'
    accepts the request `me` received from `target`, but 'DECLINED' withdraws
    the request `me` sent to `target` (see DeclineOfReceivedRequestIsRejected).
   */
  function UpdateOutcome(s: Store, me: UserId, target: UserId, status: string): (r: Result<Store>)
    ensures me !in s ==> r == Err(UserNotFound(me))
    ensures me in s && me == target ==> r == Err(CannotAnswerSelf)
    ensures status == "ACCEPTED" && me != target ==> r == AcceptOutcome(s, me, target)
    ensures status == "DECLINED" && me != target ==> r == CancelOutcome(s, me, target)
    ensures status != "ACCEPTED" && status != "DECLINED" ==>
      r.Err? && (me in s && me != target && target in s ==> r.error == InvalidStatus)
  {
    if me !in s then Err(UserNotFound(me))
    else if me == target then Err(CannotAnswerSelf)
    else if target !in s then Err(UserNotFound(target))
    else if status == "ACCEPTED" then AcceptOutcome(s, me, target)
    else if status == "DECLINED" then CancelOutcome(s, me, target)
    else Err(InvalidStatus)
  }

  /**
    `me` answers `target` with `status`, as evidently intended: both answers
    concern the request `me` received from `target`, and 'DECLINED' removes
    it from the requests of `me`.
   */
  function UpdateOutcomeIntended(s: Store, me: UserId, target: UserId, status: string): (r: Result<Store>)
    ensures me !in s ==> r == Err(UserNotFound(me))
    ensures me in s && me == target ==> r == Err(CannotAnswerSelf)
    ensures status == "ACCEPTED" && me != target ==> r == AcceptOutcome(s, me, target)
    ensures status == "DECLINED" && me in s && me != target && target in s ==>
      (r.Ok? <==> target in s[me].friendRequests)
    ensures status == "DECLINED" && r.Ok? ==>
      me in s && target in s && me != target
      && OnlyChanged(s, r.value, {me})
      && r.value[me].friendRequests == Without(s[me].friendRequests, target)
      && r.value[me].friends == s[me].friends
    ensures status == "DECLINED" && AcceptOutcome(s, me, target) == Err(NoPendingRequest) ==>
      r == Err(NoPendingRequest)
    ensures status != "ACCEPTED" && status != "DECLINED" ==> r.Err?
  {
    if me !in s then Err(UserNotFound(me))
    else if me == target then Err(CannotAnswerSelf)
    else if target !in s then Err(UserNotFound(target))
    else if status == "ACCEPTED" then AcceptOutcome(s, me, target)
    else if status == "DECLINED" then CancelOutcome(s, target, me)
    else Err(InvalidStatus)
  }

  // ---------------------------------------------------------------------------
  // Properties relating several operations
  // ---------------------------------------------------------------------------

  /** A request followed by its cancellation leaves the store as it was. */
  lemma RequestThenCancelRestores(s: Store, me: UserId, target: UserId)
    requires RequestOutcome(s, me, target).Ok?
    ensures CancelOutcome(RequestOutcome(s, me, target).value, me, target) == Ok(s)
  {
    var s1 := RequestOutcome(s, me, target).value;
    var xs := s[target].friendRequests;
    WithoutDistributes(xs, [me], me);
    assert Without([me], me) == [];
    assert Without(xs + [me], me) == xs;
    assert CancelOutcome(s1, me, target).value == s;
  }

  /** A second identical request is rejected as a duplicate. */
  lemma RequestTwiceRejected(s: Store, me: UserId, target: UserId)
    requires RequestOutcome(s, me, target).Ok?
    ensures RequestOutcome(RequestOutcome(s, me, target).value, me, target) == Err(RequestAlreadySent)
  {
  }

  /** Once cancelled, there is nothing left to cancel. */
  lemma CancelTwiceRejected(s: Store, me: UserId, target: UserId)
    requires CancelOutcome(s, me, target).Ok?
    ensures CancelOutcome(CancelOutcome(s, me, target).value, me, target) == Err(NoPendingRequest)
  {
  }

  /**
    After an accepted request the two users are friends both ways: accepting
    again, from either side, is rejected, and neither may request the other.
   */
  lemma AcceptIsFinal(s: Store, me: UserId, target: UserId)
    requires AcceptOutcome(s, me, target).Ok?
    ensures AcceptOutcome(AcceptOutcome(s, me, target).value, me, target) == Err(AlreadyFriends)
    ensures AcceptOutcome(AcceptOutcome(s, me, target).value, target, me) == Err(AlreadyFriends)
    ensures RequestOutcome(AcceptOutcome(s, me, target).value, me, target) == Err(AlreadyFriends)
    ensures RequestOutcome(AcceptOutcome(s, me, target).value, target, me) == Err(AlreadyFriends)
  {
  }

  /** A request is what an accept consumes: request, then accept from the other side. */
  lemma RequestThenAcceptMakesFriends(s: Store, me: UserId, target: UserId)
    requires RequestOutcome(s, me, target).Ok?
    ensures AcceptOutcome(RequestOutcome(s, me, target).value, target, me).Ok?
    ensures var s2 := AcceptOutcome(RequestOutcome(s, me, target).value, target, me).value;
      me in s2[target].friends && target in s2[me].friends
      && s2[target].friendRequests == s[target].friendRequests
  {
    var xs := s[target].friendRequests;
    WithoutDistributes(xs, [me], me);
    assert Without([me], me) == [];
  }

  lemma RequestKeepsConsistent(s: Store, me: UserId, target: UserId)
    requires Consistent(s) && RequestOutcome(s, me, target).Ok?
    ensures Consistent(RequestOutcome(s, me, target).value)
  {
  }

  lemma CancelKeepsConsistent(s: Store, me: UserId, target: UserId)
    requires Consistent(s) && CancelOutcome(s, me, target).Ok?
    ensures Consistent(CancelOutcome(s, me, target).value)
  {
  }

  lemma AcceptKeepsConsistent(s: Store, me: UserId, target: UserId)
    requires Consistent(s) && AcceptOutcome(s, me, target).Ok?
    ensures Consistent(AcceptOutcome(s, me, target).value)
  {
    var s' := AcceptOutcome(s, me, target).value;
    var mine, theirs := s[me].friends, s[target].friends;
    assert me !in theirs;
    assert multiset(mine + [target]) == multiset(mine) + multiset{target};
    assert multiset(theirs + [me]) == multiset(theirs) + multiset{me};
    assert NoDuplicates(s'[me].friends) && NoDuplicates(s'[target].friends);
    assert NoDuplicates(s[me].friendRequests);
    assert NoDuplicates(s'[me].friendRequests);
    assert forall x :: x in s'[me].friendRequests ==> x in s[me].friendRequests;
    forall u, v | u in s' && v in s' && v in s'[u].friends
      ensures u in s'[v].friends
    {
      if u == me && v == target {
      } else if u == target && v == me {
      } else {
        assert v in s[u].friends;
      }
    }
  }

  /**
    The rejection that `updateRequest` gives as written: `me` holds a request
    from `target` that 'ACCEPTED' would accept, yet 'DECLINED' is rejected.
   */
  lemma DeclineOfReceivedRequestIsRejected()
    ensures var s := map[1 := User([], [2]), 2 := User([], [])];
      AcceptOutcome(s, 1, 2).Ok?
      && UpdateOutcome(s, 1, 2, "DECLINED") == Err(NoPendingRequest)
      && UpdateOutcomeIntended(s, 1, 2, "DECLINED") == Ok(map[1 := User([], []), 2 := User([], [])])
  {
    var s := map[1 := User([], [2]), 2 := User([], [])];
    assert 2 in s[1].friendRequests;
    assert 1 !in s[2].friendRequests;
    assert Without([2], 2) == [];
    assert s[1 := User([], [])] == map[1 := User([], []), 2 := User([], [])];
  }

  /**
    The same rejection on every store of that shape: whenever `me` holds a
    request from `target`, they are not friends, and `target` holds no request
    from `me`, accept succeeds but 'DECLINED' as written is rejected as not
    pending, while the intended decline succeeds.
   */
  lemma DeclineAsWrittenRejectsReceivedRequests(s: Store, me: UserId, target: UserId)
    requires me in s && target in s && me != target
    requires target in s[me].friendRequests && target !in s[me].friends
    requires me !in s[target].friendRequests
    ensures AcceptOutcome(s, me, target).Ok?
    ensures UpdateOutcome(s, me, target, "DECLINED") == Err(NoPendingRequest)
    ensures UpdateOutcomeIntended(s, me, target, "DECLINED").Ok?
  {
  }

  /**
    When each of the two holds a request from the other, 'DECLINED' as written
    succeeds but removes the wrong one: the request `me` sent is withdrawn and
    the request `me` received stays pending.
   */
  lemma DeclineAsWrittenRemovesSentRequest(s: Store, me: UserId, target: UserId)
    requires me in s && target in s && me != target
    requires target in s[me].friendRequests && me in s[target].friendRequests
    ensures UpdateOutcome(s, me, target, "DECLINED").Ok?
    ensures target in UpdateOutcome(s, me, target, "DECLINED").value[me].friendRequests
    ensures me !in UpdateOutcome(s, me, target, "DECLINED").value[target].friendRequests
    ensures target !in UpdateOutcomeIntended(s, me, target, "DECLINED").value[me].friendRequests
  {
  }

  /** The intended decline undoes the request it answers. */
  lemma RequestThenIntendedDeclineRestores(s: Store, me: UserId, target: UserId)
    requires RequestOutcome(s, target, me).Ok?
    ensures UpdateOutcomeIntended(RequestOutcome(s, target, me).value, me, target, "DECLINED") == Ok(s)
  {
    RequestThenCancelRestores(s, target, me);
  }

  // ---------------------------------------------------------------------------
  // The service: lookups, guards and in-place edits of the stored records
  // ---------------------------------------------------------------------------

  class FriendRequestsService {
    var users: Store

    constructor (users: Store)
      ensures this.users == users
    {
      this.users := users;
    }

    /** The stored record of `id`; a missing user is an error. */
    method FindUserById(id: UserId) returns (r: Result<User>)
      ensures r.Ok? <==> id in users
      ensures r.Ok? ==> r.value == users[id]
      ensures r.Err? ==> r.error == UserNotFound(id)
    {
      if id in users {
        r := Ok(users[id]);
      } else {
        r := Err(UserNotFound(id));
      }
    }

    /** Writes a user record back to the store. */
    method Save(id: UserId, user: User)
      modifies this
      ensures users == old(users)[id := user]
    {
      users := users[id := user];
    }

    method Request(me: UserId, target: UserId) returns (r: Result<Reply>)
      modifies this
      ensures var o := RequestOutcome(old(users), me, target);
        if o.Ok? then users == o.value && r == Ok(SentPending)
        else users == old(users) && r == Err(o.error)
      ensures old(Consistent(users)) ==> Consistent(users)
    {
      var user := FindUserById(me);
      if user.Err? {
        return Err(user.error);
      }
      if me == target {
        return Err(CannotAddSelf);
      }
      var userToAdd := FindUserById(target);
      if userToAdd.Err? {
        return Err(userToAdd.error);
      }
      var t := userToAdd.value;
      if me in t.friends {
        return Err(AlreadyFriends);
      }
      if me in t.friendRequests {
        return Err(RequestAlreadySent);
      }
      t := t.(friendRequests := t.friendRequests + [me]);
      if Consistent(old(users)) {
        RequestKeepsConsistent(old(users), me, target);
      }
      Save(target, t);
      return Ok(SentPending);
    }

    method CancelRequest(me: UserId, target: UserId) returns (r: Result<Reply>)
      modifies this
      ensures var o := CancelOutcome(old(users), me, target);
        if o.Ok? then users == o.value && r == Ok(SentPending)
        else users == old(users) && r == Err(o.error)
      ensures old(Consistent(users)) ==> Consistent(users)
    {
      var user := FindUserById(me);
      if user.Err? {
        return Err(user.error);
      }
      if me == target {
        return Err(CannotCancelSelf);
      }
      var userToCancelRequest := FindUserById(target);
      if userToCancelRequest.Err? {
        return Err(userToCancelRequest.error);
      }
      var t := userToCancelRequest.value;
      if me !in t.friendRequests {
        return Err(NoPendingRequest);
      }
      t := t.(friendRequests := Without(t.friendRequests, me));
      if Consistent(old(users)) {
        CancelKeepsConsistent(old(users), me, target);
      }
      Save(target, t);
      return Ok(SentPending);
    }

    method AcceptRequest(me: UserId, target: UserId) returns (r: Result<Reply>)
      modifies this
      ensures var o := AcceptOutcome(old(users), me, target);
        if o.Ok? then users == o.value && r == Ok(FriendList(users[me].friends))
        else users == old(users) && r == Err(o.error)
      ensures old(Consistent(users)) ==> Consistent(users)
    {
      var user := FindUserById(me);
      if user.Err? {
        return Err(user.error);
      }
      if me == target {
        return Err(CannotAcceptSelf);
      }
      var userToAccept := FindUserById(target);
      if userToAccept.Err? {
        return Err(userToAccept.error);
      }
      var u := user.value;
      if target in u.friends {
        return Err(AlreadyFriends);
      }
      if target !in u.friendRequests {
        return Err(NoPendingRequest);
      }
      u := u.(friendRequests := Without(u.friendRequests, target));
      u := u.(friends := u.friends + [target]);
      var t := userToAccept.value;
      t := t.(friends := t.friends + [me]);
      if Consistent(old(users)) {
        AcceptKeepsConsistent(old(users), me, target);
      }
      Save(me, u);
      Save(target, t);
      var updatedUser := FindUserById(me);
      return Ok(FriendList(updatedUser.value.friends));
    }

    method UpdateRequest(me: UserId, target: UserId, status: string) returns (r: Result<Reply>)
      modifies this
      ensures var o := UpdateOutcome(old(users), me, target, status);
        if o.Ok? then
          users == o.value
          && r == (if status == "ACCEPTED" then Ok(FriendList(users[me].friends)) else Ok(SentPending))
        else users == old(users) && r == Err(o.error)
      ensures old(Consistent(users)) ==> Consistent(users)
    {
      var user := FindUserById(me);
      if user.Err? {
        return Err(user.error);
      }
      if me == target {
        return Err(CannotAnswerSelf);
      }
      var userToUpdateRequest := FindUserById(target);
      if userToUpdateRequest.Err? {
        return Err(userToUpdateRequest.error);
      }
      if status == "ACCEPTED" {
        r := AcceptRequest(me, target);
        return;
      }
      if status == "DECLINED" {
        r := CancelRequest(me, target);
        return;
      }
      return Err(InvalidStatus);
    }

    /** Which of the caller's pending lists to read back; nothing changes. */
    method PendingRequest(me: UserId, kind: string) returns (r: Result<Reply>)
      ensures me !in users ==> r == Err(UserNotFound(me))
      ensures r.Ok? <==> me in users && (kind == "sent" || kind == "received")
      ensures r.Ok? ==> r.value == (if kind == "sent" then SentPending else ReceivedPending)
      ensures me in users && r.Err? ==> r.error == InvalidType
    {
      var user := FindUserById(me);
      if user.Err? {
        return Err(user.error);
      }
      if kind == "sent" {
        return Ok(SentPending);
      }
      if kind == "received" {
        return Ok(ReceivedPending);
      }
      return Err(InvalidType);
    }
  }
}
