/** Viewer-relative fields of the serializers (core/serializers.py):
    `is_following` on a profile and `is_liked` on a post. Both read the
    serializer context's request; with no request, or with an anonymous
    user, they are false. */
module Serializers {
  import opened Models
  import SocialGraph

  /** The user attached to a request. */
  datatype RequestUser = AnonymousUser | AuthenticatedUser(id: UserId)

  /** The viewer's id, when the context holds a request by an authenticated user. */
  function Viewer(request: Option<RequestUser>): Option<UserId> {
    if request.Some? && request.value.AuthenticatedUser? then Some(request.value.id) else None
  }

  /** CustomUserDetailSerializer.get_is_following: whether the viewer is among
      the profile's followers. */
  function IsFollowing(request: Option<RequestUser>, profile: User): (r: bool)
    ensures Viewer(request).None? ==> !r
    ensures Viewer(request).Some? ==> (r <==> Viewer(request).value in profile.followers)
  {
    if request.Some? && request.value.AuthenticatedUser? then request.value.id in profile.followers
    else false
  }

  /** FeedPostSerializer.get_is_liked: whether the viewer is in the post's
      `likes` set. PostLike rows play no part. */
  function IsLiked(request: Option<RequestUser>, post: Post): (r: bool)
    ensures Viewer(request).None? ==> !r
    ensures Viewer(request).Some? ==> (r <==> Viewer(request).value in post.likes)
  {
    if request.Some? && request.value.AuthenticatedUser? then request.value.id in post.likes
    else false
  }

  /** `is_following` on a profile agrees with the viewer's `following` set. */
  lemma IsFollowingMatchesFollowing(users: SocialGraph.Accounts, profile: UserId, viewer: UserId)
    requires profile in users
    ensures IsFollowing(Some(AuthenticatedUser(viewer)), users[profile])
            <==> profile in SocialGraph.FollowingOf(users, viewer)
  {
  }

  /** After the viewer is added to a profile's followers, `is_following` is
      true there; after they are removed, it is false. */
  lemma IsFollowingAfterFollowAndUnfollow(users: SocialGraph.Accounts, profile: UserId, viewer: UserId)
    requires profile in users
    ensures IsFollowing(Some(AuthenticatedUser(viewer)), SocialGraph.AddFollowers(users, profile, {viewer})[profile])
    ensures !IsFollowing(Some(AuthenticatedUser(viewer)), SocialGraph.RemoveFollowers(users, profile, {viewer})[profile])
  {
  }

  /** After the viewer is added to a post's likes, `is_liked` is true; after
      they are removed, it is false. */
  lemma IsLikedAfterLikeAndUnlike(p: Post, viewer: UserId)
    ensures IsLiked(Some(AuthenticatedUser(viewer)), WithLikers(p, {viewer}))
    ensures !IsLiked(Some(AuthenticatedUser(viewer)), WithoutLikers(p, {viewer}))
  {
  }
}
