/** The store behind the models of core/models.py: the account, post,
    PostLike, comment and notification tables. Operations are the ORM writes
    the core performs; each many-to-many change and each comment save runs
    its signal handler (core/signals.py) right after the write, as Django's
    post_add / post_remove / post_save dispatch does. */
module Database {
  import opened Models
  import opened Signals
  import opened Cascade
  import SocialGraph

  /** A notification consistent with the rows it refers to, as the fan-out
      creates them: follow notifications carry no post; like and comment
      notifications carry a post, go to its author and never come from that
      author. */
  ghost predicate WellFormed(n: Notification, users: map<UserId, User>, posts: map<PostId, Post>) {
    && n.sender in users && n.receiver in users
    && (n.kind == FollowType <==> n.post.None?)
    && (n.post.Some? ==>
          n.post.value in posts && posts[n.post.value].author == n.receiver && n.sender != n.receiver)
  }

  /** Referential integrity of every foreign key, the PostLike uniqueness
      constraint, and the shape of the notification log. */
  ghost predicate Consistent(users: map<UserId, User>, posts: map<PostId, Post>,
                             postLikes: map<RowId, PostLike>, comments: map<RowId, Comment>,
                             notifications: seq<Notification>)
  {
    && SocialGraph.Closed(users)
    && (forall p :: p in posts ==> posts[p].author in users && posts[p].likes <= users.Keys)
    && (forall id :: id in postLikes ==> postLikes[id].user in users && postLikes[id].post in posts)
    && UniquePostLikes(postLikes)
    && (forall id :: id in comments ==> comments[id].user in users && comments[id].post in posts)
    && (forall n :: n in notifications ==> WellFormed(n, users, posts))
    && Deduplicated(notifications)
  }

  /** A collected deletion keeps the tables consistent, provided the
      collected posts include every post of a collected account. */
  lemma DeletionConsistent(users: map<UserId, User>, posts: map<PostId, Post>,
                           postLikes: map<RowId, PostLike>, comments: map<RowId, Comment>,
                           notifications: seq<Notification>, du: set<UserId>, dp: set<PostId>)
    requires Consistent(users, posts, postLikes, comments, notifications)
    requires forall p :: p in posts && posts[p].author in du ==> p in dp
    ensures Consistent(SurvivingUsers(users, du), SurvivingPosts(posts, du, dp),
                       SurvivingPostLikes(postLikes, du, dp), SurvivingComments(comments, du, dp),
                       SurvivingNotifications(notifications, du, dp))
  {
    SurvivorsDeduplicated(notifications, du, dp);
    SurvivorsWellFormed(notifications, users, posts, du, dp);
    SurvivingRowsClosed(users, posts, du, dp);
    SurvivingRowsRefer(users, posts, comments, postLikes, du, dp);
  }

  /** Every primary key is below the next value of its table's sequence. */
  ghost predicate KeysBelow(users: map<UserId, User>, posts: map<PostId, Post>,
                            postLikes: map<RowId, PostLike>, comments: map<RowId, Comment>,
                            nextUser: nat, nextPost: nat, nextPostLike: nat, nextComment: nat)
  {
    && (forall u :: u in users ==> u < nextUser)
    && (forall p :: p in posts ==> p < nextPost)
    && (forall id :: id in postLikes ==> id < nextPostLike)
    && (forall id :: id in comments ==> id < nextComment)
  }

  /** A deletion only removes keys. */
  lemma DeletionKeysBelow(users: map<UserId, User>, posts: map<PostId, Post>,
                          postLikes: map<RowId, PostLike>, comments: map<RowId, Comment>,
                          nextUser: nat, nextPost: nat, nextPostLike: nat, nextComment: nat,
                          du: set<UserId>, dp: set<PostId>)
    requires KeysBelow(users, posts, postLikes, comments, nextUser, nextPost, nextPostLike, nextComment)
    ensures KeysBelow(SurvivingUsers(users, du), SurvivingPosts(posts, du, dp),
                      SurvivingPostLikes(postLikes, du, dp), SurvivingComments(comments, du, dp),
                      nextUser, nextPost, nextPostLike, nextComment)
  {
  }

  /** Notifications well-formed for some tables stay so for tables with the
      same accounts, the same posts and the same post authors. */
  lemma WellFormedFrame(log: seq<Notification>, users: map<UserId, User>, posts: map<PostId, Post>,
                        users': map<UserId, User>, posts': map<PostId, Post>)
    requires forall n :: n in log ==> WellFormed(n, users, posts)
    requires users'.Keys == users.Keys && posts'.Keys == posts.Keys
    requires forall p :: p in posts ==> posts'[p].author == posts[p].author
    ensures forall n :: n in log ==> WellFormed(n, users', posts')
  {
  }

  /** The rows a fan-out appends are well-formed when their senders and
      receiver are accounts and their post, if any, is the receiver's and
      not the sender's. */
  lemma FannedOutWellFormed(log: seq<Notification>, r: seq<Notification>, senders: set<UserId>,
                            receiver: UserId, kind: NotificationType, post: Option<PostId>,
                            users: map<UserId, User>, posts: map<PostId, Post>)
    requires forall n :: n in log ==> WellFormed(n, users, posts)
    requires FannedOut(log, r, senders, receiver, kind, post)
    requires senders <= users.Keys && receiver in users
    requires kind == FollowType <==> post.None?
    requires post.Some? ==> post.value in posts && posts[post.value].author == receiver && receiver !in senders
    ensures forall n :: n in r ==> WellFormed(n, users, posts)
  {
    forall n | n in r ensures WellFormed(n, users, posts) {
      var i :| 0 <= i < |r| && r[i] == n;
      if i < |log| {
        assert n == log[i];
      }
    }
  }

  /** After a collected deletion the accounts' followers and the posts'
      authors and likers are still accounts. */
  lemma SurvivingRowsClosed(users: map<UserId, User>, posts: map<PostId, Post>,
                            du: set<UserId>, dp: set<PostId>)
    requires SocialGraph.Closed(users)
    requires forall p :: p in posts ==> posts[p].author in users && posts[p].likes <= users.Keys
    requires forall p :: p in posts && posts[p].author in du ==> p in dp
    ensures SocialGraph.Closed(SurvivingUsers(users, du))
    ensures var users', posts' := SurvivingUsers(users, du), SurvivingPosts(posts, du, dp);
            forall p :: p in posts' ==> posts'[p].author in users' && posts'[p].likes <= users'.Keys
  {
  }

  /** The notifications left by a collected deletion still refer only to
      rows that are left. */
  lemma SurvivorsWellFormed(log: seq<Notification>, users: map<UserId, User>, posts: map<PostId, Post>,
                            du: set<UserId>, dp: set<PostId>)
    requires forall n :: n in log ==> WellFormed(n, users, posts)
    ensures var users', posts' := SurvivingUsers(users, du), SurvivingPosts(posts, du, dp);
            forall n :: n in SurvivingNotifications(log, du, dp) ==> WellFormed(n, users', posts')
  {
  }

  /** The comments and PostLike rows left by a collected deletion still refer
      only to accounts and posts that are left. */
  lemma SurvivingRowsRefer(users: map<UserId, User>, posts: map<PostId, Post>,
                           comments: map<RowId, Comment>, postLikes: map<RowId, PostLike>,
                           du: set<UserId>, dp: set<PostId>)
    requires forall id :: id in comments ==> comments[id].user in users && comments[id].post in posts
    requires forall id :: id in postLikes ==> postLikes[id].user in users && postLikes[id].post in posts
    ensures var users', posts' := SurvivingUsers(users, du), SurvivingPosts(posts, du, dp);
            var comments' := SurvivingComments(comments, du, dp);
            forall id :: id in comments' ==> comments'[id].user in users' && comments'[id].post in posts'
    ensures var users', posts' := SurvivingUsers(users, du), SurvivingPosts(posts, du, dp);
            var postLikes' := SurvivingPostLikes(postLikes, du, dp);
            forall id :: id in postLikes' ==> postLikes'[id].user in users' && postLikes'[id].post in posts'
  {
  }

  /** Collecting no account changes no account. */
  lemma NothingCollectedKeepsUsers(users: map<UserId, User>)
    ensures SurvivingUsers(users, {}) == users
  {
    assert forall u :: u in users ==> User(users[u].followers - {}) == users[u];
  }

  /** With no account collected, the posts left are the others, unchanged. */
  lemma NoUserCollectedKeepsPosts(posts: map<PostId, Post>, dp: set<PostId>)
    ensures SurvivingPosts(posts, {}, dp) == posts - dp
  {
    assert forall p :: p in posts ==> Post(posts[p].author, posts[p].likes - {}) == posts[p];
  }

  class Store {
    var users: map<UserId, User>
    var posts: map<PostId, Post>
    var postLikes: map<RowId, PostLike>
    var comments: map<RowId, Comment>
    var notifications: seq<Notification>
    /** Next values of the auto-increment primary keys. */
    var nextUserId: nat
    var nextPostId: nat
    var nextPostLikeId: nat
    var nextCommentId: nat

    /** Consistency of the tables, and every key below its table's next key. */
    ghost predicate Valid()
      reads this
    {
      && Consistent(users, posts, postLikes, comments, notifications)
      && KeysBelow(users, posts, postLikes, comments, nextUserId, nextPostId, nextPostLikeId, nextCommentId)
    }

    constructor ()
      ensures Valid()
      ensures users == map[] && posts == map[] && postLikes == map[] && comments == map[]
      ensures notifications == []
    {
      users, posts, postLikes, comments, notifications := map[], map[], map[], map[], [];
      nextUserId, nextPostId, nextPostLikeId, nextCommentId := 0, 0, 0, 0;
    }

    /** `CustomUser.objects.create(...)`: a new account following nobody and
        followed by nobody. */
    method CreateUser() returns (u: UserId)
      requires Valid()
      modifies this
      ensures Valid()
      ensures u !in old(users) && users == old(users)[u := User({})]
      ensures posts == old(posts) && postLikes == old(postLikes) && comments == old(comments)
      ensures notifications == old(notifications)
    {
      u := nextUserId;
      users := users[u := User({})];
      nextUserId := nextUserId + 1;
    }

    /** `Post.objects.create(author=...)`: a new post with no likes. */
    method CreatePost(author: UserId) returns (p: PostId)
      requires Valid() && author in users
      modifies this
      ensures Valid()
      ensures p !in old(posts) && posts == old(posts)[p := Post(author, {})]
      ensures users == old(users) && postLikes == old(postLikes) && comments == old(comments)
      ensures notifications == old(notifications)
    {
      p := nextPostId;
      posts := posts[p := Post(author, {})];
      nextPostId := nextPostId + 1;
    }

    /** `target.followers.add(*us)`. Django reports only the pairs it inserted
        in the post_add pk_set; the follow handler then runs on them. */
    method AddFollowers(target: UserId, us: set<UserId>)
      requires Valid() && target in users && us <= users.Keys
      modifies this
      ensures Valid()
      ensures users == SocialGraph.AddFollowers(old(users), target, us)
      ensures FannedOut(old(notifications), notifications, us - old(users[target].followers),
                        target, FollowType, None)
      ensures posts == old(posts) && postLikes == old(postLikes) && comments == old(comments)
    {
      var added := us - users[target].followers;
      users := SocialGraph.AddFollowers(users, target, us);
      notifications := FollowFanOut(notifications, target, PostAdd, added);
      FannedOutDeduplicated(old(notifications), notifications, added, target, FollowType, None);
      WellFormedFrame(old(notifications), old(users), posts, users, posts);
      FannedOutWellFormed(old(notifications), notifications, added, target, FollowType, None, users, posts);
    }

    /** `target.followers.remove(*us)`. The follow handler sees post_remove
        and adds nothing. */
    method RemoveFollowers(target: UserId, us: set<UserId>)
      requires Valid() && target in users
      modifies this
      ensures Valid()
      ensures users == SocialGraph.RemoveFollowers(old(users), target, us)
      ensures notifications == old(notifications)
      ensures posts == old(posts) && postLikes == old(postLikes) && comments == old(comments)
    {
      users := SocialGraph.RemoveFollowers(users, target, us);
      notifications := FollowFanOut(notifications, target, PostRemove, us);
    }

    /** `post.likes.add(*us)`. The like handler runs on the likers actually
        inserted and skips the post's author. PostLike rows are untouched. */
    method AddLikers(p: PostId, us: set<UserId>)
      requires Valid() && p in posts && us <= users.Keys
      modifies this
      ensures Valid()
      ensures posts == old(posts)[p := WithLikers(old(posts)[p], us)]
      ensures FannedOut(old(notifications), notifications,
                        (us - old(posts)[p].likes) - {old(posts)[p].author},
                        old(posts)[p].author, LikeType, Some(p))
      ensures users == old(users) && postLikes == old(postLikes) && comments == old(comments)
    {
      var author := posts[p].author;
      var added := us - posts[p].likes;
      posts := posts[p := WithLikers(posts[p], us)];
      notifications := LikeFanOut(notifications, author, p, PostAdd, added);
      FannedOutDeduplicated(old(notifications), notifications, added - {author}, author, LikeType, Some(p));
      WellFormedFrame(old(notifications), users, old(posts), users, posts);
      FannedOutWellFormed(old(notifications), notifications, added - {author}, author, LikeType, Some(p),
                          users, posts);
    }

    /** `post.likes.remove(*us)`. The like handler sees post_remove and adds
        nothing. */
    method RemoveLikers(p: PostId, us: set<UserId>)
      requires Valid() && p in posts
      modifies this
      ensures Valid()
      ensures posts == old(posts)[p := WithoutLikers(old(posts)[p], us)]
      ensures notifications == old(notifications)
      ensures users == old(users) && postLikes == old(postLikes) && comments == old(comments)
    {
      var author := posts[p].author;
      posts := posts[p := WithoutLikers(posts[p], us)];
      notifications := LikeFanOut(notifications, author, p, PostRemove, us);
      WellFormedFrame(notifications, users, old(posts), users, posts);
    }

    /** `PostLike.objects.create(user=..., post=...)`: refused with an
        integrity error (None) when the pair already has a row, which
        leaves the table unchanged. No signal listens on this table. */
    method CreatePostLike(user: UserId, post: PostId) returns (id: Option<RowId>)
      requires Valid() && user in users && post in posts
      modifies this
      ensures Valid()
      ensures id.None? <==> HasPostLike(old(postLikes), user, post)
      ensures id.None? ==> postLikes == old(postLikes)
      ensures id.Some? ==>
                id.value !in old(postLikes) && postLikes == old(postLikes)[id.value := PostLike(user, post)]
      ensures users == old(users) && posts == old(posts) && comments == old(comments)
      ensures notifications == old(notifications)
    {
      var inserted := InsertPostLike(postLikes, nextPostLikeId, user, post);
      if inserted.Some? {
        id := Some(nextPostLikeId);
        postLikes := inserted.value;
        nextPostLikeId := nextPostLikeId + 1;
      } else {
        id := None;
      }
    }

    /** `Comment.objects.create(...)`: the post_save handler runs with
        created set. */
    method CreateComment(user: UserId, post: PostId, text: string) returns (id: RowId)
      requires Valid() && user in users && post in posts
      modifies this
      ensures Valid()
      ensures id !in old(comments) && comments == old(comments)[id := Comment(user, post, text)]
      ensures notifications ==
                CommentFanOut(old(notifications), Comment(user, post, text), old(posts)[post].author, true)
      ensures users == old(users) && posts == old(posts) && postLikes == old(postLikes)
    {
      var c := Comment(user, post, text);
      id := nextCommentId;
      comments := comments[id := c];
      nextCommentId := nextCommentId + 1;
      notifications := CommentFanOut(notifications, c, posts[post].author, true);
      CommentFanOutDeduplicated(old(notifications), c, posts[post].author, true);
      forall n | n in notifications ensures WellFormed(n, users, posts) {
        var i :| 0 <= i < |notifications| && notifications[i] == n;
        if i < |old(notifications)| {
          assert n == old(notifications)[i];
        }
      }
    }

    /** `comment.save()` on an existing comment: the post_save handler runs
        with created unset and adds nothing. */
    method SaveComment(id: RowId, text: string)
      requires Valid() && id in comments
      modifies this
      ensures Valid()
      ensures comments == old(comments)[id := Comment(old(comments)[id].user, old(comments)[id].post, text)]
      ensures notifications == old(notifications)
      ensures users == old(users) && posts == old(posts) && postLikes == old(postLikes)
    {
      var c := Comment(comments[id].user, comments[id].post, text);
      comments := comments[id := c];
      notifications := CommentFanOut(notifications, c, posts[c.post].author, false);
    }

    /** Deletes the collected accounts `du` and posts `dp` and every row that
        refers to them. `dp` must hold every post whose author is in `du`. */
    method DeleteCollected(du: set<UserId>, dp: set<PostId>)
      requires Valid()
      requires forall p :: p in posts && posts[p].author in du ==> p in dp
      modifies this
      ensures Valid()
      ensures users == SurvivingUsers(old(users), du)
      ensures posts == SurvivingPosts(old(posts), du, dp)
      ensures comments == SurvivingComments(old(comments), du, dp)
      ensures postLikes == SurvivingPostLikes(old(postLikes), du, dp)
      ensures notifications == SurvivingNotifications(old(notifications), du, dp)
    {
      DeletionConsistent(users, posts, postLikes, comments, notifications, du, dp);
      DeletionKeysBelow(users, posts, postLikes, comments, nextUserId, nextPostId, nextPostLikeId, nextCommentId, du, dp);
      users, posts := SurvivingUsers(users, du), SurvivingPosts(posts, du, dp);
      comments, postLikes := SurvivingComments(comments, du, dp), SurvivingPostLikes(postLikes, du, dp);
      notifications := SurvivingNotifications(notifications, du, dp);
    }

    /** `post.delete()`: its comments, its PostLike rows, its likes and the
        notifications about it go with it; nothing else changes. */
    method DeletePost(p: PostId)
      requires Valid() && p in posts
      modifies this
      ensures Valid()
      ensures users == old(users)
      ensures posts == old(posts) - {p}
      ensures comments == SurvivingComments(old(comments), {}, {p})
      ensures postLikes == SurvivingPostLikes(old(postLikes), {}, {p})
      ensures notifications == SurvivingNotifications(old(notifications), {}, {p})
    {
      NothingCollectedKeepsUsers(old(users));
      NoUserCollectedKeepsPosts(old(posts), {p});
      DeleteCollected({}, {p});
    }

    /** `user.delete()`: their posts with everything that depends on those,
        their comments, their PostLike rows, their likes, their follow edges
        in both directions and every notification they sent or received. */
    method DeleteUser(u: UserId)
      requires Valid() && u in users
      modifies this
      ensures Valid()
      ensures users == SurvivingUsers(old(users), {u})
      ensures posts == SurvivingPosts(old(posts), {u}, PostsBy(old(posts), u))
      ensures comments == SurvivingComments(old(comments), {u}, PostsBy(old(posts), u))
      ensures postLikes == SurvivingPostLikes(old(postLikes), {u}, PostsBy(old(posts), u))
      ensures notifications == SurvivingNotifications(old(notifications), {u}, PostsBy(old(posts), u))
    {
      DeleteCollected({u}, PostsBy(posts, u));
    }
  }
}
