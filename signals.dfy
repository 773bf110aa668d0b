/** Notification fan-out (core/signals.py). Each handler is modelled as a
    computation on the notification log that the mutating operation calls
    right after it changed the store. */
module Signals {
  import opened Models

  /** The `action` argument of an m2m_changed signal. */
  datatype M2MAction = PreAdd | PostAdd | PreRemove | PostRemove | PreClear | PostClear

  /** `n` is a row that a get_or_create lookup on (sender, receiver, type,
      post) finds; the read flag is not part of the lookup. */
  predicate Matches(n: Notification, sender: UserId, receiver: UserId,
                    kind: NotificationType, post: Option<PostId>)
  {
    n.sender == sender && n.receiver == receiver && n.kind == kind && n.post == post
  }

  predicate Exists(log: seq<Notification>, sender: UserId, receiver: UserId,
                   kind: NotificationType, post: Option<PostId>)
  {
    exists n | n in log :: Matches(n, sender, receiver, kind, post)
  }

  /** Like and follow notifications occur at most once per (sender,
      receiver, type, post); comment notifications may repeat. */
  ghost predicate Deduplicated(log: seq<Notification>) {
    forall i, j :: 0 <= i < j < |log| && log[i].kind != CommentType ==>
      !Matches(log[j], log[i].sender, log[i].receiver, log[i].kind, log[i].post)
  }

  /** `Notification.objects.get_or_create(..., defaults={"is_read": False})`:
      the log keeps every row it had, read flags included; afterwards a
      matching row exists; a row is appended exactly when none matched, and
      that row is unread. */
  function GetOrCreate(log: seq<Notification>, sender: UserId, receiver: UserId,
                       kind: NotificationType, post: Option<PostId>): (r: seq<Notification>)
    ensures |log| <= |r| <= |log| + 1 && r[..|log|] == log
    ensures Exists(r, sender, receiver, kind, post)
    ensures |r| == |log| + 1 <==> !Exists(log, sender, receiver, kind, post)
    ensures |r| == |log| + 1 ==> r[|log|] == Notification(sender, receiver, kind, post, false)
  {
    if Exists(log, sender, receiver, kind, post) then log
    else
      var n := Notification(sender, receiver, kind, post, false);
      assert n in log + [n];
      log + [n]
  }

  /** `r` is `log` after one get_or_create per sender in `senders`, all on the
      same (receiver, type, post): the old rows are untouched, every sender
      has a matching row, and each appended row is an unread row for a
      distinct sender that had no matching row before. This fixes `r` up to
      the order of the appended rows, which follows the iteration order of
      the pk_set. */
  ghost predicate FannedOut(log: seq<Notification>, r: seq<Notification>, senders: set<UserId>,
                            receiver: UserId, kind: NotificationType, post: Option<PostId>)
  {
    && |log| <= |r| <= |log| + |senders| && r[..|log|] == log
    && (forall s :: s in senders ==> Exists(r, s, receiver, kind, post))
    && (forall i :: |log| <= i < |r| ==>
          && r[i].sender in senders && r[i].receiver == receiver && r[i].kind == kind
          && r[i].post == post && !r[i].isRead
          && !Exists(log, r[i].sender, receiver, kind, post))
    && (forall i, j :: |log| <= i < j < |r| ==> r[i].sender != r[j].sender)
  }

  /** One more get_or_create, for a sender not handled yet, extends a
      fan-out to that sender. */
  lemma FannedOutStep(log: seq<Notification>, r: seq<Notification>, done: set<UserId>, s: UserId,
                      receiver: UserId, kind: NotificationType, post: Option<PostId>)
    requires FannedOut(log, r, done, receiver, kind, post)
    requires s !in done
    ensures FannedOut(log, GetOrCreate(r, s, receiver, kind, post), done + {s}, receiver, kind, post)
  {
    var r' := GetOrCreate(r, s, receiver, kind, post);
    assert |done + {s}| == |done| + 1;
    assert r'[..|log|] == log by { assert r'[..|r|] == r; }
    if |r'| == |r| {
      assert r' == r by { assert r'[..|r|] == r; }
    } else {
      var n := Notification(s, receiver, kind, post, false);
      assert r' == r + [n] by { assert r'[..|r|] == r; }
      assert !Exists(log, s, receiver, kind, post) by {
        assert forall m :: m in log ==> m in r by { assert r[..|log|] == log; }
      }
      assert forall t :: Exists(r, t, receiver, kind, post) ==> Exists(r', t, receiver, kind, post) by {
        assert forall m :: m in r ==> m in r';
      }
    }
  }

  /** The loop of the like and follow handlers: one get_or_create per element
      of the pk_set, in whatever order the set is iterated. */
  method GetOrCreateEach(log: seq<Notification>, senders: set<UserId>, receiver: UserId,
                         kind: NotificationType, post: Option<PostId>) returns (r: seq<Notification>)
    ensures FannedOut(log, r, senders, receiver, kind, post)
  {
    r := log;
    var rest := senders;
    while rest != {}
      invariant rest <= senders
      invariant FannedOut(log, r, senders - rest, receiver, kind, post)
      decreases rest
    {
      var s :| s in rest;
      FannedOutStep(log, r, senders - rest, s, receiver, kind, post);
      r := GetOrCreate(r, s, receiver, kind, post);
      assert senders - (rest - {s}) == (senders - rest) + {s};
      rest := rest - {s};
    }
    assert senders - rest == senders;
  }

  /** create_like_notification: on post_add, one like notification per
      added liker other than the post's author; nothing on any other action. */
  method LikeFanOut(log: seq<Notification>, author: UserId, post: PostId,
                    action: M2MAction, pkSet: set<UserId>) returns (r: seq<Notification>)
    ensures action != PostAdd ==> r == log
    ensures action == PostAdd ==> FannedOut(log, r, pkSet - {author}, author, LikeType, Some(post))
  {
    r := log;
    if action == PostAdd {
      r := GetOrCreateEach(log, pkSet - {author}, author, LikeType, Some(post));
    }
  }

  /** create_follow_notification: on post_add, one follow notification per
      added follower, with no post and no self check; nothing on any other
      action. */
  method FollowFanOut(log: seq<Notification>, followed: UserId,
                      action: M2MAction, pkSet: set<UserId>) returns (r: seq<Notification>)
    ensures action != PostAdd ==> r == log
    ensures action == PostAdd ==> FannedOut(log, r, pkSet, followed, FollowType, None)
  {
    r := log;
    if action == PostAdd {
      r := GetOrCreateEach(log, pkSet, followed, FollowType, None);
    }
  }

  /** create_comment_notification: only for a newly created comment whose
      author is not the post's author, append one unread comment
      notification (commenter to post author, on that post), with no
      deduplication. */
  function CommentFanOut(log: seq<Notification>, c: Comment, postAuthor: UserId, created: bool)
    : (r: seq<Notification>)
    ensures |log| <= |r| <= |log| + 1 && r[..|log|] == log
    ensures |r| == |log| + 1 <==> created && c.user != postAuthor
    ensures |r| == |log| + 1 ==>
              r[|log|] == Notification(c.user, postAuthor, CommentType, Some(c.post), false)
  {
    if created && c.user != postAuthor then
      log + [Notification(c.user, postAuthor, CommentType, Some(c.post), false)]
    else log
  }

  /** Comment notifications are not deduplicated: the same comment saved as
      new twice yields two rows. */
  lemma CommentNotDeduplicated(log: seq<Notification>, c: Comment, postAuthor: UserId)
    requires c.user != postAuthor
    ensures |CommentFanOut(CommentFanOut(log, c, postAuthor, true), c, postAuthor, true)| == |log| + 2
  {
  }

  /** With a single sender, the fan-out is exactly one get_or_create. */
  lemma {:induction false} FannedOutSingle(log: seq<Notification>, r: seq<Notification>, s: UserId,
                                           receiver: UserId, kind: NotificationType, post: Option<PostId>)
    requires FannedOut(log, r, {s}, receiver, kind, post)
    ensures r == GetOrCreate(log, s, receiver, kind, post)
  {
    ghost var first := if |log| < |r| then r[|log|] else Notification(s, receiver, kind, post, false);
    assert |log| < |r| ==> first.sender == s && !Exists(log, s, receiver, kind, post);
    if Exists(log, s, receiver, kind, post) {
      assert |r| == |log|;
      assert r == r[..|log|];
    } else {
      assert r[..|r|] == r;
      assert |r| == |log| + 1;
      assert r == r[..|log|] + [r[|log|]];
    }
  }

  /** Fan-out keeps the log deduplicated. */
  lemma FannedOutDeduplicated(log: seq<Notification>, r: seq<Notification>, senders: set<UserId>,
                              receiver: UserId, kind: NotificationType, post: Option<PostId>)
    requires Deduplicated(log)
    requires FannedOut(log, r, senders, receiver, kind, post)
    ensures Deduplicated(r)
  {
    forall i, j | 0 <= i < j < |r| && r[i].kind != CommentType
      ensures !Matches(r[j], r[i].sender, r[i].receiver, r[i].kind, r[i].post)
    {
      if j < |log| {
        assert r[i] == log[i] && r[j] == log[j];
      } else if i < |log| {
        assert r[i] == log[i];
        if Matches(r[j], r[i].sender, r[i].receiver, r[i].kind, r[i].post) {
          assert Matches(log[i], r[j].sender, receiver, kind, post);
          assert false;
        }
      }
    }
  }

  /** A comment notification keeps the log deduplicated. */
  lemma CommentFanOutDeduplicated(log: seq<Notification>, c: Comment, postAuthor: UserId, created: bool)
    requires Deduplicated(log)
    ensures Deduplicated(CommentFanOut(log, c, postAuthor, created))
  {
    var r := CommentFanOut(log, c, postAuthor, created);
    forall i, j | 0 <= i < j < |r| && r[i].kind != CommentType
      ensures !Matches(r[j], r[i].sender, r[i].receiver, r[i].kind, r[i].post)
    {
      if j < |log| {
        assert r[i] == log[i] && r[j] == log[j];
      }
    }
  }
}
