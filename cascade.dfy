/** Cascade deletion as declared by `on_delete=CASCADE` (core/models.py).
    Deleting a post or an account first collects the doomed accounts `du`
    and posts `dp`; every row then survives exactly when none of its foreign
    keys points into them. Many-to-many rows (followers, likes) are dropped
    with either end. */
module Cascade {
  import opened Models
  import opened Signals

  /** The accounts left, each without the deleted followers. */
  function SurvivingUsers(users: map<UserId, User>, du: set<UserId>): (r: map<UserId, User>)
    ensures r.Keys == users.Keys - du
    ensures forall u :: u in r ==> r[u].followers == users[u].followers - du
  {
    map u | u in users && u !in du :: User(users[u].followers - du)
  }

  /** The posts left, each with the same author and without the deleted likers. */
  function SurvivingPosts(posts: map<PostId, Post>, du: set<UserId>, dp: set<PostId>)
    : (r: map<PostId, Post>)
    ensures r.Keys == posts.Keys - dp
    ensures forall p :: p in r ==> r[p].author == posts[p].author && r[p].likes == posts[p].likes - du
  {
    map p | p in posts && p !in dp :: Post(posts[p].author, posts[p].likes - du)
  }

  /** Comment.user and Comment.post are both CASCADE. */
  function SurvivingComments(comments: map<RowId, Comment>, du: set<UserId>, dp: set<PostId>)
    : (r: map<RowId, Comment>)
    ensures forall id :: id in r <==> id in comments && comments[id].user !in du && comments[id].post !in dp
    ensures forall id :: id in r ==> r[id] == comments[id]
  {
    map id | id in comments && comments[id].user !in du && comments[id].post !in dp :: comments[id]
  }

  /** PostLike.user and PostLike.post are both CASCADE. */
  function SurvivingPostLikes(rows: map<RowId, PostLike>, du: set<UserId>, dp: set<PostId>)
    : (r: map<RowId, PostLike>)
    ensures forall id :: id in r <==> id in rows && rows[id].user !in du && rows[id].post !in dp
    ensures forall id :: id in r ==> r[id] == rows[id]
    ensures UniquePostLikes(rows) ==> UniquePostLikes(r)
  {
    map id | id in rows && rows[id].user !in du && rows[id].post !in dp :: rows[id]
  }

  /** Notification.sender, Notification.receiver and Notification.post are
      all CASCADE; a notification without a post is only tied to its two
      accounts. */
  predicate NotificationSurvives(n: Notification, du: set<UserId>, dp: set<PostId>) {
    n.sender !in du && n.receiver !in du && (n.post.None? || n.post.value !in dp)
  }

  /** The notification log after the deletion, in its original order. */
  function SurvivingNotifications(log: seq<Notification>, du: set<UserId>, dp: set<PostId>)
    : (r: seq<Notification>)
    ensures forall n :: n in r <==> n in log && NotificationSurvives(n, du, dp)
    ensures |r| <= |log|
    ensures (forall n :: n in log ==> NotificationSurvives(n, du, dp)) ==> r == log
  {
    if log == [] then []
    else
      var rest := SurvivingNotifications(log[1..], du, dp);
      assert forall n :: n in log <==> n == log[0] || n in log[1..];
      assert log == [log[0]] + log[1..];
      if NotificationSurvives(log[0], du, dp) then [log[0]] + rest else rest
  }

  /** Only the referencing rows go: a surviving notification keeps every
      copy it had in the log, so identical comment notifications all stay. */
  lemma {:induction false} SurvivorCounts(log: seq<Notification>, du: set<UserId>, dp: set<PostId>, n: Notification)
    ensures multiset(SurvivingNotifications(log, du, dp))[n]
            == if NotificationSurvives(n, du, dp) then multiset(log)[n] else 0
    decreases |log|
  {
    if log != [] {
      SurvivorCounts(log[1..], du, dp, n);
      assert log == [log[0]] + log[1..];
    }
  }

  /** Dropping the first row keeps the log deduplicated. */
  lemma TailDeduplicated(log: seq<Notification>)
    requires log != [] && Deduplicated(log)
    ensures Deduplicated(log[1..])
  {
    var tail := log[1..];
    forall i, j | 0 <= i < j < |tail| && tail[i].kind != CommentType
      ensures !Matches(tail[j], tail[i].sender, tail[i].receiver, tail[i].kind, tail[i].post)
    {
      assert tail[i] == log[i + 1] && tail[j] == log[j + 1];
    }
  }

  /** In a deduplicated log, no later row repeats the key of a first like or
      follow row. */
  lemma HeadUnrepeated(log: seq<Notification>)
    requires log != [] && Deduplicated(log) && log[0].kind != CommentType
    ensures forall n | n in log[1..] :: !Matches(n, log[0].sender, log[0].receiver, log[0].kind, log[0].post)
  {
    forall n | n in log[1..]
      ensures !Matches(n, log[0].sender, log[0].receiver, log[0].kind, log[0].post)
    {
      var k :| 0 <= k < |log[1..]| && log[1..][k] == n;
      assert log[k + 1] == n;
    }
  }

  /** Deleting rows from the log keeps it deduplicated. */
  lemma {:induction false} SurvivorsDeduplicated(log: seq<Notification>, du: set<UserId>, dp: set<PostId>)
    requires Deduplicated(log)
    ensures Deduplicated(SurvivingNotifications(log, du, dp))
    decreases |log|
  {
    if log != [] {
      var tail := log[1..];
      TailDeduplicated(log);
      SurvivorsDeduplicated(tail, du, dp);
      var rest := SurvivingNotifications(tail, du, dp);
      if NotificationSurvives(log[0], du, dp) {
        if log[0].kind != CommentType {
          HeadUnrepeated(log);
        }
        var r := [log[0]] + rest;
        forall i, j | 0 <= i < j < |r| && r[i].kind != CommentType
          ensures !Matches(r[j], r[i].sender, r[i].receiver, r[i].kind, r[i].post)
        {
          if i == 0 {
            assert r[j] in tail;
          } else {
            assert r[i] == rest[i - 1] && r[j] == rest[j - 1];
          }
        }
      }
    }
  }
}
