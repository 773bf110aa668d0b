/** The directed follow relation: `CustomUser.followers`, declared
    non-symmetrical with reverse side `following` (core/models.py). The
    account table maps each account to its followers. */
module SocialGraph {
  import opened Models

  type Accounts = map<UserId, User>

  /** Every follower of every account is itself an account. */
  ghost predicate Closed(users: Accounts) {
    forall u :: u in users ==> users[u].followers <= users.Keys
  }

  /** `user.followers.all()`. */
  function FollowersOf(users: Accounts, u: UserId): set<UserId>
    requires u in users
  {
    users[u].followers
  }

  /** `user.following.all()`: the accounts that list `u` among their followers. */
  function FollowingOf(users: Accounts, u: UserId): (r: set<UserId>)
    ensures r <= users.Keys
    ensures forall v :: v in users ==> (v in r <==> u in FollowersOf(users, v))
  {
    set v | v in users && u in users[v].followers
  }

  /** `target.followers.add(*us)`: only the target's followers change, and
      they gain exactly `us`. */
  function AddFollowers(users: Accounts, target: UserId, us: set<UserId>): (r: Accounts)
    requires target in users
    ensures r.Keys == users.Keys
    ensures r[target].followers == users[target].followers + us
    ensures forall v :: v in users && v != target ==> r[v] == users[v]
  {
    users[target := User(users[target].followers + us)]
  }

  /** `target.followers.remove(*us)`: only the target's followers change, and
      they lose exactly `us`. */
  function RemoveFollowers(users: Accounts, target: UserId, us: set<UserId>): (r: Accounts)
    requires target in users
    ensures r.Keys == users.Keys
    ensures r[target].followers == users[target].followers - us
    ensures forall v :: v in users && v != target ==> r[v] == users[v]
  {
    users[target := User(users[target].followers - us)]
  }

  /** `following` is the inverse of `followers`. */
  lemma FollowingIsInverse(users: Accounts, x: UserId, y: UserId)
    requires y in users
    ensures x in FollowersOf(users, y) <==> y in FollowingOf(users, x)
  {
  }

  /** The relation is directed: x following y does not make y follow x. */
  lemma FollowIsDirected(users: Accounts, x: UserId, y: UserId)
    requires x in users && y in users && x != y
    requires y !in users[x].followers
    ensures x in FollowersOf(AddFollowers(users, y, {x}), y)
    ensures y !in FollowersOf(AddFollowers(users, y, {x}), x)
  {
  }

  /** Adding a follower who was not there and removing them again restores
      the relation. */
  lemma AddRemoveRoundTrip(users: Accounts, target: UserId, x: UserId)
    requires target in users && x !in users[target].followers
    ensures RemoveFollowers(AddFollowers(users, target, {x}), target, {x}) == users
  {
    assert users[target].followers + {x} - {x} == users[target].followers;
  }

  /** Adding x to the target's followers adds exactly the target to what x
      follows. */
  lemma FollowingAfterAdd(users: Accounts, target: UserId, x: UserId)
    requires target in users
    ensures FollowingOf(AddFollowers(users, target, {x}), x) == FollowingOf(users, x) + {target}
  {
    var r := AddFollowers(users, target, {x});
    assert forall v :: v in FollowingOf(r, x) <==> v in FollowingOf(users, x) + {target};
  }

  /** Removing x from the target's followers removes exactly the target from
      what x follows. */
  lemma FollowingAfterRemove(users: Accounts, target: UserId, x: UserId)
    requires target in users
    ensures FollowingOf(RemoveFollowers(users, target, {x}), x) == FollowingOf(users, x) - {target}
  {
    var r := RemoveFollowers(users, target, {x});
    assert forall v :: v in FollowingOf(r, x) <==> v in FollowingOf(users, x) - {target};
  }

  /** What anyone other than x follows is untouched by x's follow edges. */
  lemma FollowingOfOthers(users: Accounts, target: UserId, x: UserId, w: UserId)
    requires target in users && w != x
    ensures FollowingOf(AddFollowers(users, target, {x}), w) == FollowingOf(users, w)
    ensures FollowingOf(RemoveFollowers(users, target, {x}), w) == FollowingOf(users, w)
  {
    var a := AddFollowers(users, target, {x});
    var d := RemoveFollowers(users, target, {x});
    assert forall v :: v in FollowingOf(a, w) <==> v in FollowingOf(users, w);
    assert forall v :: v in FollowingOf(d, w) <==> v in FollowingOf(users, w);
  }
}
