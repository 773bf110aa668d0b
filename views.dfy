/** The account view set (core/views.py): the follow and unfollow actions,
    the followers listing and the counts annotated on retrieve. The caller
    is the authenticated request user; `self.get_object()` answers "not
    found" for a target that is not an account. */
module Views {
  import opened Models
  import opened Signals
  import SocialGraph
  import opened Database

  /** What the follow action does. SelfFollow is the refusal for following
      oneself; Followed is the case that adds the edge. */
  datatype FollowOutcome = FollowTargetNotFound | SelfFollow | AlreadyFollowing | Followed

  datatype UnfollowOutcome = UnfollowTargetNotFound | Unfollowed | NotFollowing

  /** The counts annotated on a profile when it is retrieved. */
  datatype ProfileCounts = ProfileCounts(postsCount: nat, followersCount: nat, followingCount: nat)

  /** CustomUserViewSet.follow. Refusals leave the store unchanged. Otherwise
      exactly the edge caller -> target is added, and one follow notification
      from caller to target exists afterwards (created unread unless one was
      already there). */
  method Follow(s: Store, caller: UserId, target: UserId) returns (r: FollowOutcome)
    requires s.Valid() && caller in s.users
    modifies s
    ensures s.Valid()
    ensures r == FollowTargetNotFound <==> target !in old(s.users)
    ensures r == SelfFollow <==> target in old(s.users) && caller == target
    ensures r == AlreadyFollowing <==>
              target in old(s.users) && caller != target && caller in old(s.users[target].followers)
    ensures r != Followed ==> unchanged(s)
    ensures r == Followed ==>
              && s.users == SocialGraph.AddFollowers(old(s.users), target, {caller})
              && s.notifications == GetOrCreate(old(s.notifications), caller, target, FollowType, None)
              && s.posts == old(s.posts) && s.postLikes == old(s.postLikes) && s.comments == old(s.comments)
  {
    if target !in s.users {
      return FollowTargetNotFound;
    }
    if caller == target {
      return SelfFollow;
    }
    if caller in s.users[target].followers {
      return AlreadyFollowing;
    }
    ghost var log := s.notifications;
    assert {caller} - s.users[target].followers == {caller};
    s.AddFollowers(target, {caller});
    FannedOutSingle(log, s.notifications, caller, target, FollowType, None);
    r := Followed;
  }

  /** CustomUserViewSet.unfollow: removes exactly the edge caller -> target
      when it is there; never touches the notifications. */
  method Unfollow(s: Store, caller: UserId, target: UserId) returns (r: UnfollowOutcome)
    requires s.Valid() && caller in s.users
    modifies s
    ensures s.Valid()
    ensures r == UnfollowTargetNotFound <==> target !in old(s.users)
    ensures r == Unfollowed <==> target in old(s.users) && caller in old(s.users[target].followers)
    ensures r != Unfollowed ==> unchanged(s)
    ensures r == Unfollowed ==>
              && s.users == SocialGraph.RemoveFollowers(old(s.users), target, {caller})
              && s.notifications == old(s.notifications)
              && s.posts == old(s.posts) && s.postLikes == old(s.postLikes) && s.comments == old(s.comments)
  {
    if target !in s.users {
      return UnfollowTargetNotFound;
    }
    if caller in s.users[target].followers {
      s.RemoveFollowers(target, {caller});
      return Unfollowed;
    }
    return NotFollowing;
  }

  /** A follow followed by an unfollow restores the follow relation, while
      the follow notification stays. */
  method FollowThenUnfollow(s: Store, caller: UserId, target: UserId)
    requires s.Valid() && caller in s.users && target in s.users && caller != target
    requires caller !in s.users[target].followers
    modifies s
    ensures s.Valid()
    ensures s.users == old(s.users)
    ensures Exists(s.notifications, caller, target, FollowType, None)
  {
    var followed := Follow(s, caller, target);
    var unfollowed := Unfollow(s, caller, target);
    SocialGraph.AddRemoveRoundTrip(old(s.users), target, caller);
  }

  /** CustomUserViewSet.followers: not found for a missing target, otherwise
      exactly the accounts whose `following` holds the target. */
  function FollowersListing(users: SocialGraph.Accounts, target: UserId): (r: Option<set<UserId>>)
    ensures r.None? <==> target !in users
    ensures r.Some? ==> forall v :: v in r.value <==> target in SocialGraph.FollowingOf(users, v)
  {
    if target in users then Some(SocialGraph.FollowersOf(users, target)) else None
  }

  /** The distinct counts annotated by get_queryset on retrieve. Counting
      distinct rows, none exceeds the size of its table. */
  function Retrieve(users: SocialGraph.Accounts, posts: map<PostId, Post>, u: UserId): (r: ProfileCounts)
    requires u in users
    ensures r.postsCount <= |posts|
    ensures r.followingCount <= |users|
  {
    SubsetSize(PostsBy(posts, u), posts.Keys);
    SubsetSize(SocialGraph.FollowingOf(users, u), users.Keys);
    ProfileCounts(|PostsBy(posts, u)|, |SocialGraph.FollowersOf(users, u)|,
                  |SocialGraph.FollowingOf(users, u)|)
  }

  /** A new follow edge raises the target's followers_count and the
      follower's following_count by one, and changes no other count. */
  lemma FollowUpdatesCounts(users: SocialGraph.Accounts, posts: map<PostId, Post>,
                            caller: UserId, target: UserId, w: UserId)
    requires caller in users && target in users && w in users
    requires caller !in users[target].followers
    ensures var after := SocialGraph.AddFollowers(users, target, {caller});
            && Retrieve(after, posts, target).followersCount == Retrieve(users, posts, target).followersCount + 1
            && Retrieve(after, posts, caller).followingCount == Retrieve(users, posts, caller).followingCount + 1
            && Retrieve(after, posts, w).postsCount == Retrieve(users, posts, w).postsCount
            && (w != target ==> Retrieve(after, posts, w).followersCount == Retrieve(users, posts, w).followersCount)
            && (w != caller ==> Retrieve(after, posts, w).followingCount == Retrieve(users, posts, w).followingCount)
  {
    SocialGraph.FollowingAfterAdd(users, target, caller);
    assert target !in SocialGraph.FollowingOf(users, caller);
    if w != caller {
      SocialGraph.FollowingOfOthers(users, target, caller, w);
    }
  }

  /** Removing an existing follow edge lowers the target's followers_count
      and the follower's following_count by one, and changes no other count. */
  lemma UnfollowUpdatesCounts(users: SocialGraph.Accounts, posts: map<PostId, Post>,
                              caller: UserId, target: UserId, w: UserId)
    requires caller in users && target in users && w in users
    requires caller in users[target].followers
    ensures var after := SocialGraph.RemoveFollowers(users, target, {caller});
            && Retrieve(after, posts, target).followersCount + 1 == Retrieve(users, posts, target).followersCount
            && Retrieve(after, posts, caller).followingCount + 1 == Retrieve(users, posts, caller).followingCount
            && Retrieve(after, posts, w).postsCount == Retrieve(users, posts, w).postsCount
            && (w != target ==> Retrieve(after, posts, w).followersCount == Retrieve(users, posts, w).followersCount)
            && (w != caller ==> Retrieve(after, posts, w).followingCount == Retrieve(users, posts, w).followingCount)
  {
    SocialGraph.FollowingAfterRemove(users, target, caller);
    assert target in SocialGraph.FollowingOf(users, caller);
    if w != caller {
      SocialGraph.FollowingOfOthers(users, target, caller, w);
    }
  }

  /** A subset is no larger than its superset. */
  lemma {:induction false} SubsetSize<T>(a: set<T>, b: set<T>)
    requires a <= b
    ensures |a| <= |b|
    decreases |b|
  {
    if b != {} {
      var x :| x in b;
      SubsetSize(a - {x}, b - {x});
    }
  }

  /** followers_count on retrieve, counted forward over `followers`, equals
      the number of accounts whose `following` holds the profile. */
  lemma CountMatchesListing(users: SocialGraph.Accounts, posts: map<PostId, Post>, u: UserId)
    requires u in users && SocialGraph.Closed(users)
    ensures FollowersListing(users, u).Some?
    ensures Retrieve(users, posts, u).followersCount == |FollowersListing(users, u).value|
    ensures Retrieve(users, posts, u).followersCount
            == |set v | v in users && u in SocialGraph.FollowingOf(users, v)|
    ensures Retrieve(users, posts, u).followersCount <= |users|
  {
    SubsetSize(SocialGraph.FollowersOf(users, u), users.Keys);
    var reverse := set v | v in users && u in SocialGraph.FollowingOf(users, v);
    assert reverse == SocialGraph.FollowersOf(users, u) by {
      forall v ensures v in reverse <==> v in SocialGraph.FollowersOf(users, u) {
        if v in users {
          SocialGraph.FollowingIsInverse(users, v, u);
        }
      }
    }
  }
}
