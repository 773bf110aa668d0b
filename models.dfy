/** Entity shapes of the social graph: accounts with their directed
    `followers` relation, posts with their `likes` set, the separate PostLike
    table, comments and the notification log (core/models.py). */
module Models {

  type UserId = nat
  type PostId = nat
  /** Primary key of a row of the PostLike or Comment table. */
  type RowId = nat

  datatype Option<T> = None | Some(value: T)

  /** An account. `followers` is the non-symmetrical many-to-many field on the
      account itself; its reverse side is the account's `following`. */
  datatype User = User(followers: set<UserId>)

  /** A post, its author and its `likes` many-to-many field. */
  datatype Post = Post(author: UserId, likes: set<UserId>)

  /** A row of the PostLike table. It is not linked to `Post.likes`. */
  datatype PostLike = PostLike(user: UserId, post: PostId)

  datatype Comment = Comment(user: UserId, post: PostId, text: string)

  /** The three choices of a notification's `type` field. */
  datatype NotificationType = LikeType | CommentType | FollowType

  /** A notification row; `post` is the nullable foreign key to Post. */
  datatype Notification = Notification(
    sender: UserId,
    receiver: UserId,
    kind: NotificationType,
    post: Option<PostId>,
    isRead: bool)

  /** The value stored in the `type` column for each choice. */
  function TypeName(t: NotificationType): string {
    match t
    case LikeType => "like"
    case CommentType => "comment"
    case FollowType => "follow"
  }

  /** The choice a stored `type` value stands for, if it is one of the choices. */
  function ParseType(s: string): (r: Option<NotificationType>)
    ensures r.Some? <==> s == "like" || s == "comment" || s == "follow"
    ensures r.Some? ==> TypeName(r.value) == s
  {
    if s == "like" then Some(LikeType)
    else if s == "comment" then Some(CommentType)
    else if s == "follow" then Some(FollowType)
    else None
  }

  /** Every choice is stored under a name that reads back as that choice,
      so the three names are distinct. */
  lemma ParseTypeName(t: NotificationType)
    ensures ParseType(TypeName(t)) == Some(t)
  {
  }

  /** The posts whose author is `u` (the reverse side `posts` of Post.author). */
  function PostsBy(posts: map<PostId, Post>, u: UserId): set<PostId> {
    set p | p in posts && posts[p].author == u
  }

  /** `post.likes.add(*us)`: the likes field is a set. */
  function WithLikers(p: Post, us: set<UserId>): (r: Post)
    ensures r.author == p.author
    ensures p.likes <= r.likes && us <= r.likes
    ensures forall x :: x in r.likes ==> x in p.likes || x in us
  {
    Post(p.author, p.likes + us)
  }

  /** `post.likes.remove(*us)`. */
  function WithoutLikers(p: Post, us: set<UserId>): (r: Post)
    ensures r.author == p.author
    ensures r.likes <= p.likes
    ensures forall x :: x in us ==> x !in r.likes
    ensures forall x :: x in p.likes && x !in us ==> x in r.likes
  {
    Post(p.author, p.likes - us)
  }

  /** Liking a post one did not like and unliking it again restores the post. */
  lemma LikeUnlikeRoundTrip(p: Post, x: UserId)
    requires x !in p.likes
    ensures WithoutLikers(WithLikers(p, {x}), {x}) == p
  {
    assert p.likes + {x} - {x} == p.likes;
  }

  /** Adding users who already like the post leaves it unchanged. */
  lemma LikesIsASet(p: Post, us: set<UserId>)
    requires us <= p.likes
    ensures WithLikers(p, us) == p
  {
  }

  /** The unique_together constraint of PostLike: no two rows hold the same
      (user, post) pair. */
  ghost predicate UniquePostLikes(rows: map<RowId, PostLike>) {
    forall i, j :: i in rows && j in rows && i != j ==> rows[i] != rows[j]
  }

  /** Whether a (user, post) pair already has a PostLike row. */
  predicate HasPostLike(rows: map<RowId, PostLike>, user: UserId, post: PostId) {
    exists i :: i in rows && rows[i] == PostLike(user, post)
  }

  /** Inserting a PostLike row under a fresh key: refused with an integrity
      error (None) when the pair is present, otherwise the table grows by
      exactly that row. */
  function InsertPostLike(rows: map<RowId, PostLike>, id: RowId, user: UserId, post: PostId)
    : (r: Option<map<RowId, PostLike>>)
    requires id !in rows
    ensures r.None? <==> HasPostLike(rows, user, post)
    ensures r.Some? ==> r.value.Keys == rows.Keys + {id} && r.value[id] == PostLike(user, post)
    ensures r.Some? ==> forall i :: i in rows ==> r.value[i] == rows[i]
    ensures UniquePostLikes(rows) && r.Some? ==> UniquePostLikes(r.value)
  {
    if HasPostLike(rows, user, post) then None
    else Some(rows[id := PostLike(user, post)])
  }
}
