# Social graph and notification store of an Instagram-like Django backend

This project models the application logic of the `core` app of a Django
social-media backend. It covers:

- the accounts and their directed `followers` relation;
- the posts and their `likes` set;
- the separate `PostLike` table;
- the comments;
- the notification log that signal handlers append to.

The store is a class, `Database.Store`. It holds one field per table. Its
methods are the ORM writes the core performs. Each many-to-many change and
each comment save runs the matching handler from `core/signals.py` right
after the write, as Django's signal dispatch does. In Django these handlers
are implicit observers. Here the write calls them explicitly.

The modules follow the source files:

- `Models` (models.dfy) holds the entity shapes and the three notification
  type choices. It also holds the PostLike uniqueness constraint.
- `SocialGraph` (graph.dfy) holds the `followers` field and its reverse side
  `following`.
- `Signals` (signals.dfy) holds the three handlers. They are computations on
  the notification log. The like and follow handlers loop over the pk_set
  and do one `get_or_create` per element.
- `Cascade` (cascade.dfy) says which rows are left once the doomed accounts
  and posts are collected. This follows each `on_delete=CASCADE` declaration.
- `Database` (database.dfy) holds the `Store` class and its invariant.
  The invariant covers referential integrity, PostLike uniqueness, the shape
  of each notification and the deduplication of like and follow
  notifications.
- `Serializers` (serializers.dfy) holds `is_following` and `is_liked`.
- `Views` (views.dfy) holds the `follow`, `unfollow` and `followers` actions
  and the counts annotated on retrieve. These act on a `Store`.

The comment handler skips a comment by the post's own author
(core/signals.py:9). Deleting a post deletes the notifications that refer to
it, because `Notification.post` is `CASCADE` (core/models.py:75).

Two behaviours of Django itself are assumed, because the repository relies
on them without showing them:

- On `add`, the post_add signal's `pk_set` holds only the ids that were
  actually inserted.
- `get_or_create` looks rows up by the given fields only. So the read flag is
  not part of the lookup.

## Model

| member | source | states |
|---|---|---|
| `Models.ParseType` | core/models.py:66-70 | A stored `type` value denotes a choice exactly when it is "like", "comment" or "follow", and that choice is stored under that value |
| `Models.ParseTypeName` | core/models.py:66-74 | Every notification type reads back as itself from its stored value, so a notification's type is exactly one of the three |
| `Models.WithLikers` | core/models.py:36 | `post.likes.add` keeps the author and every old liker, adds every given user and nobody else |
| `Models.WithoutLikers` | core/models.py:36 | `post.likes.remove` keeps the author, removes every given user and keeps every other liker |
| `Models.LikeUnlikeRoundTrip` | core/models.py:36 | Liking a post one did not like and unliking it again restores the post |
| `Models.LikesIsASet` | core/models.py:36 | Adding users who already like a post leaves the post unchanged |
| `Models.InsertPostLike` | core/models.py:44-49 | Inserting a (user, post) pair that already has a row fails; otherwise exactly that row is added; uniqueness is kept |
| `SocialGraph.AddFollowers` | core/models.py:8 | `followers.add` gives the target exactly the added followers and leaves every other account unchanged |
| `SocialGraph.RemoveFollowers` | core/models.py:8 | `followers.remove` takes exactly the removed followers from the target and leaves every other account unchanged |
| `SocialGraph.FollowingOf` | core/models.py:8 | The reverse side `following` holds only accounts, and exactly those among whose followers the account is |
| `SocialGraph.FollowingIsInverse` | core/models.py:8 | x is among y's followers exactly when y is among what x follows |
| `SocialGraph.FollowIsDirected` | core/models.py:8 | x following y does not make y follow x |
| `SocialGraph.AddRemoveRoundTrip` | core/views.py:47-58 | Adding a follower who was absent and removing them again restores the relation |
| `SocialGraph.FollowingAfterAdd` | core/models.py:8 | Adding x to the target's followers adds exactly the target to x's following |
| `SocialGraph.FollowingAfterRemove` | core/models.py:8 | Removing x from the target's followers removes exactly the target from x's following |
| `SocialGraph.FollowingOfOthers` | core/models.py:8 | x's follow edges do not change anyone else's following |
| `Signals.GetOrCreate` | core/signals.py:25-31 | Existing rows, read flags included, are kept; a matching row exists afterwards; a row is appended exactly when none matched, and it is unread |
| `Signals.FannedOutStep` | core/signals.py:22-31 | One more get_or_create for a new sender extends the fan-out to that sender |
| `Signals.GetOrCreateEach` | core/signals.py:37-44 | After the loop over the pk_set, every element has a matching row; each appended row is unread, for a distinct element and had no match before; old rows are untouched |
| `Signals.LikeFanOut` | core/signals.py:19-31 | On post_add, exactly the added likers other than the author get a deduplicated, unread like notification to the author on that post; other actions change nothing |
| `Signals.FollowFanOut` | core/signals.py:34-44 | On post_add, every added follower gets a deduplicated, unread follow notification with no post and no self check; other actions change nothing |
| `Signals.CommentFanOut` | core/signals.py:6-16 | One unread comment notification from commenter to post author on that post is appended exactly when the comment is new and not the author's own |
| `Signals.CommentNotDeduplicated` | core/signals.py:10-16 | Two new-comment saves by a non-author append two comment notifications |
| `Signals.FannedOutSingle` | core/signals.py:37-44 | A fan-out over a single follower is exactly one get_or_create |
| `Signals.FannedOutDeduplicated` | core/signals.py:25-31 | A fan-out keeps like and follow notifications at most one per (sender, receiver, type, post) |
| `Signals.CommentFanOutDeduplicated` | core/signals.py:10-16 | Appending a comment notification keeps that deduplication |
| `Cascade.SurvivingUsers` | core/models.py:8 | Deleting accounts removes them and removes them from every other account's followers |
| `Cascade.SurvivingPosts` | core/models.py:33-36 | The posts left are those not collected; each keeps its author and loses only the deleted likers |
| `Cascade.SurvivingComments` | core/models.py:56-57 | A comment is left exactly when neither its user nor its post is deleted, and it is unchanged |
| `Cascade.SurvivingPostLikes` | core/models.py:45-46 | A PostLike row is left exactly when neither its user nor its post is deleted; uniqueness is kept |
| `Cascade.SurvivingNotifications` | core/models.py:72-75 | A notification is left exactly when its sender, its receiver and its post, if any, are all kept; the log never grows, and if all are kept it is unchanged |
| `Cascade.SurvivorCounts` | core/models.py:72-75 | A surviving notification keeps every copy it had in the log, so identical comment notifications all stay; a deleted one keeps none |
| `Cascade.SurvivorsDeduplicated` | core/models.py:72-75 | Deleting notifications keeps the log deduplicated |
| `Database.DeletionConsistent` | core/models.py:33-75 | A cascade deletion whose collected posts include every post of a collected account keeps every foreign key, PostLike uniqueness and the notification shape |
| `Database.FannedOutWellFormed` | core/signals.py:22-44 | Rows appended by a like or follow fan-out refer to existing accounts and posts; like rows go to the post's author and never come from that author |
| `Database.Store.CreateUser` | core/models.py:4-10 | A new account under a fresh key, with no followers; nothing else changes |
| `Database.Store.CreatePost` | core/models.py:32-38 | A new post under a fresh key, with its author and no likes; nothing else changes |
| `Database.Store.AddFollowers` | core/signals.py:34-44 | The target gains exactly the given followers; the follow fan-out runs over the newly inserted ones; other tables are unchanged |
| `Database.Store.RemoveFollowers` | core/signals.py:36 | The target loses exactly the given followers; no notification is added or removed |
| `Database.Store.AddLikers` | core/signals.py:19-31 | The post's likes gain exactly the given users; the like fan-out runs over the newly inserted ones minus the author; PostLike rows are untouched |
| `Database.Store.RemoveLikers` | core/signals.py:21 | The post's likes lose exactly the given users; no notification is added or removed |
| `Database.Store.CreatePostLike` | core/models.py:44-49 | A duplicate (user, post) pair is refused with the table unchanged; otherwise exactly that row is added under a fresh key |
| `Database.Store.CreateComment` | core/signals.py:6-16 | A new comment row, followed by the comment handler with created set |
| `Database.Store.SaveComment` | core/signals.py:8 | Saving an existing comment changes its text and adds no notification |
| `Database.Store.DeleteCollected` | core/models.py:33-75 | Deleting collected accounts and posts leaves exactly the surviving rows of every table and keeps the invariant |
| `Database.Store.DeletePost` | core/models.py:46-75 | Deleting a post removes exactly it, its comments, its PostLike rows and the notifications on it; accounts are unchanged |
| `Database.Store.DeleteUser` | core/models.py:33-73 | Deleting an account removes its posts with their dependents, its comments, PostLike rows, likes, follow edges and every notification it sent or received |
| `Serializers.IsFollowing` | core/serializers.py:20-24 | False with no request or an anonymous user; otherwise true exactly when the viewer is among the profile's followers |
| `Serializers.IsLiked` | core/serializers.py:43-47 | False with no request or an anonymous user; otherwise true exactly when the viewer is in the post's likes, whatever the PostLike rows |
| `Serializers.IsFollowingMatchesFollowing` | core/serializers.py:23 | is_following agrees with the viewer's following set |
| `Serializers.IsFollowingAfterFollowAndUnfollow` | core/serializers.py:23 | is_following is true after the viewer is added to the followers and false after removal |
| `Serializers.IsLikedAfterLikeAndUnlike` | core/serializers.py:46 | is_liked is true after the viewer is added to the likes and false after removal |
| `Views.Follow` | core/views.py:36-49 | A missing target or a self-follow is refused and an existing edge is a no-op, all with the store unchanged; otherwise exactly the edge caller to target is added and one follow notification exists |
| `Views.Unfollow` | core/views.py:52-61 | A missing target or a missing edge changes nothing; otherwise exactly the edge caller to target is removed, notifications untouched |
| `Views.FollowThenUnfollow` | core/views.py:47-58 | Follow then unfollow restores the follow relation while the follow notification stays |
| `Views.FollowersListing` | core/views.py:64-67 | Not found for a missing target; otherwise exactly the accounts whose following holds the target |
| `Views.Retrieve` | core/views.py:22-27 | The annotated posts, followers and following counts; posts_count and following_count never exceed the size of their tables |
| `Views.FollowUpdatesCounts` | core/views.py:23-27 | A new edge raises the target's followers_count and the caller's following_count by one and no other count |
| `Views.UnfollowUpdatesCounts` | core/views.py:23-27 | Removing an edge lowers those two counts by one and no other count |
| `Views.CountMatchesListing` | core/views.py:23-27 | In a closed account table, followers_count, counted forward over `followers`, equals the size of the followers listing and the number of accounts whose `following` holds the profile, and is at most the number of accounts |

## Left out

- HTTP and REST framework plumbing is not modelled: response bodies, status codes, permission classes, the search filter and pagination (core/views.py:15-17, 69-75). The caller of `follow` and `unfollow` is assumed authenticated. That is what `IsAuthenticated` guarantees.
- Views.Follow: the refusal at core/views.py:42 and the success response at core/views.py:49 both fail at run time, because `status` is never imported. The model treats the first as a refusal with no state change. For the second it keeps the state change, which has already happened, and ignores the response.
- The `following` action (core/views.py:78-89) is not modelled as an action. It never calls `get_object`, so it always fails. The `following` relation itself is `SocialGraph.FollowingOf`.
- `PostViewSet` (core/views.py:93-96) declares no action of its own and is not modelled. Posts are created and deleted through the store's ORM operations.
- Registration, authentication, the feed, a like toggle and a comment endpoint do not exist in the code and are not modelled.
- Changing the read flag of a notification is not modelled. No code in the core does it.
- Signals.GetOrCreate: when two or more rows already match, Django's `get_or_create` raises `MultipleObjectsReturned`, and the `add` that fired the signal fails. The model returns the log unchanged instead. `Database.Store.Valid` rules such logs out for every write modelled here. Only rows written outside the model can produce them, from the seed command (core/management/commands/seed.py) or the admin (core/admin.py).
- Views.Retrieve, Serializers.IsFollowing and Serializers.IsLiked model the count annotation and the serializer methods as written, but no response carries them. `CustomUserDetailSerializer` declares no `Meta.model` (core/serializers.py:17-18), and REST framework's `ModelSerializer` fails when it builds its fields. So retrieve (core/views.py:29-32) fails, and so does the unpaginated branch of the followers listing (core/views.py:73-75). `FeedPostSerializer` is used by no view, so `is_liked` never reaches a response either.
- Signals.GetOrCreateEach: the order of the appended rows is left open. It follows the iteration order of the pk_set, which the source does not fix.
- Names, e-mail, bio, website, avatar and post images are not modelled. Neither are captions, timestamps or `max_length` limits. These involve files and the clock, and the lengths are not enforced by the models.
- Transactions and the concurrency of `get_or_create` are not modelled. Each operation is one atomic step.
- The seed command (core/management/commands/seed.py) is not modelled. It creates notifications directly, with any type and any post, so its data need not satisfy `Database.Store.Valid`. It can also add self-follows through `followers.add`. `Database.Store.AddFollowers` allows that too, and the follow handler then notifies the account of its own follow.
- The admin and URL configuration (core/admin.py, core/urls.py) is not modelled.
