/** The post service: the like toggle (a membership flip in the post_likes
    table plus a counter on the post), the home feed, and creating, deleting
    and listing posts. */
module PostService {
  import opened Common
  import opened Ordering

  const DefaultFeedLimit: nat := 20
  const UnknownAuthor := "Unknown"

  /** A row of the posts table. */
  datatype Post = Post(
    id: Id, authorId: Id, title: string, excerpt: string, content: string, imageUrl: Option<string>,
    likesCount: int, commentsCount: Option<int>, createdAt: Timestamp)

  /** A row of the post_likes table, identified by its post and its user. */
  datatype LikeKey = LikeKey(postId: Id, userId: Id)

  datatype PostState = PostState(posts: seq<Post>, likes: set<LikeKey>)

  /** The state after a toggle, and the error the call reports (None for `{ error: null }`). */
  datatype Toggled = Toggled(after: PostState, error: Option<string>)

  datatype Created = Created(after: PostState, result: Result<Post>)

  // ---------------------------------------------------------------- likes

  /** The users who like a post. */
  function LikedBy(likes: set<LikeKey>, postId: Id): set<Id> {
    set k | k in likes && k.postId == postId :: k.userId
  }

  /** `update({ likes_count: likes_count + delta }).eq('id', postId)`. */
  function Bump(posts: seq<Post>, postId: Id, delta: int): (r: seq<Post>)
    ensures |r| == |posts|
    ensures forall i :: 0 <= i < |posts| ==>
      r[i] == if posts[i].id == postId then posts[i].(likesCount := posts[i].likesCount + delta) else posts[i]
  {
    seq(|posts|, i requires 0 <= i < |posts| =>
      if posts[i].id == postId then posts[i].(likesCount := posts[i].likesCount + delta) else posts[i])
  }

  /** `toggleLike(postId)`. `lookup` is the "already liked?" query, `likeWrite`
      the delete or insert of the like row and `countWrite` the counter update;
      the answers of the two writes are not checked, so the call reports no
      error whenever a user is signed in. A failed lookup reads as "not liked
      yet", so the like is inserted and the counter goes up. */
  function Toggle(s: PostState, user: Option<Id>, postId: Id, lookup: Step, likeWrite: Step, countWrite: Step): (r: Toggled)
    ensures user.None? ==> r == Toggled(s, Some(NotAuthenticated))
    ensures user.Some? ==> r.error.None?
    ensures likeWrite.FailsWith? ==> r.after.likes == s.likes
    ensures countWrite.FailsWith? ==> r.after.posts == s.posts
    ensures user.Some? && likeWrite.Succeeds? ==>
      var k := LikeKey(postId, user.value);
      var liked := lookup.Succeeds? && k in s.likes;
      r.after.likes == if liked then s.likes - {k} else s.likes + {k}
    ensures user.Some? && countWrite.Succeeds? ==>
      var liked := lookup.Succeeds? && LikeKey(postId, user.value) in s.likes;
      r.after.posts == Bump(s.posts, postId, if liked then -1 else 1)
  {
    if user.None? then Toggled(s, Some(NotAuthenticated))
    else
      var k := LikeKey(postId, user.value);
      var existing := lookup.Succeeds? && k in s.likes;
      var likes := if likeWrite.FailsWith? then s.likes else if existing then s.likes - {k} else s.likes + {k};
      var posts := if countWrite.FailsWith? then s.posts else Bump(s.posts, postId, if existing then -1 else 1);
      Toggled(PostState(posts, likes), None)
  }

  /** Liking adds the user to the post's likers and unliking removes them; the
      counter moves by one in the same direction. */
  lemma ToggleFlipsMembership(s: PostState, me: Id, postId: Id)
    ensures var r := Toggle(s, Some(me), postId, Succeeds, Succeeds, Succeeds);
      (me in LikedBy(s.likes, postId) ==> LikedBy(r.after.likes, postId) == LikedBy(s.likes, postId) - {me})
      && (me !in LikedBy(s.likes, postId) ==> LikedBy(r.after.likes, postId) == LikedBy(s.likes, postId) + {me})
  {
    var k := LikeKey(postId, me);
    var r := Toggle(s, Some(me), postId, Succeeds, Succeeds, Succeeds);
    if me in LikedBy(s.likes, postId) {
      var k' :| k' in s.likes && k'.postId == postId && k'.userId == me;
      assert k' == k;
    } else {
      assert k !in s.likes;
      assert k in r.after.likes;
    }
  }

  /** Toggling twice, with every request succeeding, restores the likes and the counters. */
  lemma {:induction false} ToggleTwiceRestores(s: PostState, me: Id, postId: Id)
    ensures var once := Toggle(s, Some(me), postId, Succeeds, Succeeds, Succeeds).after;
      Toggle(once, Some(me), postId, Succeeds, Succeeds, Succeeds).after == s
  {
    var k := LikeKey(postId, me);
    var once := Toggle(s, Some(me), postId, Succeeds, Succeeds, Succeeds).after;
    var twice := Toggle(once, Some(me), postId, Succeeds, Succeeds, Succeeds).after;
    if k in s.likes {
      assert k !in once.likes;
      assert twice.likes == s.likes;
    } else {
      assert k in once.likes;
      assert twice.likes == s.likes;
    }
    assert twice.posts == s.posts;
  }

  /** Every post's counter equals its number of likers. */
  ghost predicate CountsAgree(s: PostState) {
    forall i :: 0 <= i < |s.posts| ==> s.posts[i].likesCount == |LikedBy(s.likes, s.posts[i].id)|
  }

  /** A toggle in which every request succeeds keeps the counters in agreement
      with the likes. */
  lemma ToggleKeepsCounts(s: PostState, me: Id, postId: Id)
    requires CountsAgree(s)
    ensures CountsAgree(Toggle(s, Some(me), postId, Succeeds, Succeeds, Succeeds).after)
  {
    var r := Toggle(s, Some(me), postId, Succeeds, Succeeds, Succeeds).after;
    ToggleFlipsMembership(s, me, postId);
    forall i | 0 <= i < |r.posts| ensures r.posts[i].likesCount == |LikedBy(r.likes, r.posts[i].id)| {
      var p := s.posts[i];
      if p.id != postId {
        assert LikedBy(r.likes, p.id) == LikedBy(s.likes, p.id);
      }
    }
  }

  // ---------------------------------------------------------------- feed

  /** One row of the feed query: the post with its author's name, the
      `likes:post_likes(count)` aggregate and the `user_liked` user ids. */
  datatype FeedRow = FeedRow(post: Post, authorName: Option<string>, likeCounts: seq<int>, userLiked: seq<Id>)

  /** A post as the feed shows it; `createdAt` is the instant that is then formatted. */
  datatype FeedItem = FeedItem(
    id: Id, title: string, excerpt: string, imageUrl: Option<string>, authorName: string,
    createdAt: Timestamp, likesCount: int, commentsCount: int, isLiked: bool)

  function FeedItemOf(row: FeedRow): (v: FeedItem)
    ensures v.id == row.post.id && v.createdAt == row.post.createdAt
    ensures v.title == row.post.title && v.excerpt == row.post.excerpt && v.imageUrl == row.post.imageUrl
    ensures v.isLiked <==> |row.userLiked| > 0
    ensures v.likesCount == if |row.likeCounts| > 0 then row.likeCounts[0] else 0
    ensures v.commentsCount == if row.post.commentsCount.Some? then row.post.commentsCount.value else 0
    ensures v.authorName == if Truthy(row.authorName) then row.authorName.value else UnknownAuthor
  {
    FeedItem(row.post.id, row.post.title, row.post.excerpt, row.post.imageUrl, OrDefault(row.authorName, UnknownAuthor),
             row.post.createdAt,
             if |row.likeCounts| > 0 then row.likeCounts[0] else 0,
             if row.post.commentsCount.Some? then row.post.commentsCount.value else 0,
             |row.userLiked| > 0)
  }

  function FeedRowCreated(row: FeedRow): int {
    row.post.createdAt
  }

  function FeedItems(rows: seq<FeedRow>): (r: seq<FeedItem>)
    ensures |r| == |rows|
    ensures forall i :: 0 <= i < |rows| ==> r[i] == FeedItemOf(rows[i])
  {
    if rows == [] then [] else [FeedItemOf(rows[0])] + FeedItems(rows[1..])
  }

  /** `order('created_at', { ascending: false }).limit(limit)` on the feed rows:
      the first `limit` rows of a newest-first rearrangement of all of them. */
  function NewestRows(rows: seq<FeedRow>, limit: nat): (top: seq<FeedRow>)
    ensures |top| == if |rows| < limit then |rows| else limit
    ensures SortedDesc(top, FeedRowCreated)
    ensures multiset(top) <= multiset(rows)
    ensures forall i, row :: 0 <= i < |top| && row in multiset(rows) - multiset(top) ==>
      FeedRowCreated(row) <= FeedRowCreated(top[i])
    ensures exists sorted ::
      SortedDesc(sorted, FeedRowCreated) && multiset(sorted) == multiset(rows) && top == Take(sorted, limit)
  {
    var sorted := SortDesc(rows, FeedRowCreated);
    TakeSorted(sorted, limit, FeedRowCreated);
    TakeNewest(sorted, limit, FeedRowCreated);
    Take(sorted, limit)
  }

  /** The items of the newest rows, one per row and in the same order: as many
      as the limit allows, newest first, and no row left out is newer than an
      item shown. */
  lemma NewestItems(rows: seq<FeedRow>, limit: nat)
    ensures var top := NewestRows(rows, limit);
      var r := FeedItems(top);
      |r| == (if |rows| < limit then |rows| else limit)
      && (forall i :: 0 <= i < |r| ==> r[i] == FeedItemOf(top[i]))
      && (forall i, j :: 0 <= i < j < |r| ==> r[i].createdAt >= r[j].createdAt)
      && (forall i, row :: 0 <= i < |r| && row in multiset(rows) - multiset(top) ==> row.post.createdAt <= r[i].createdAt)
  {
    var top := NewestRows(rows, limit);
    var r := FeedItems(top);
    assert forall i :: 0 <= i < |r| ==> r[i].createdAt == FeedRowCreated(top[i]);
  }

  /** `getFeed(limit = 20)`: the newest `limit` rows, newest first, reshaped. */
  function GetFeed(rows: seq<FeedRow>, query: Step, limit: nat := DefaultFeedLimit): (r: Result<seq<FeedItem>>)
    ensures query.FailsWith? ==> r == Err(query.message)
    ensures r.Ok? <==> query.Succeeds?
    ensures r.Ok? ==> |r.value| == |NewestRows(rows, limit)|
    ensures r.Ok? ==> forall i :: 0 <= i < |r.value| ==> r.value[i] == FeedItemOf(NewestRows(rows, limit)[i])
    ensures r.Ok? ==>
      |r.value| == (if |rows| < limit then |rows| else limit)
      && (forall i, j :: 0 <= i < j < |r.value| ==> r.value[i].createdAt >= r.value[j].createdAt)
  {
    if query.FailsWith? then Err(query.message)
    else
      NewestItems(rows, limit);
      Ok(FeedItems(NewestRows(rows, limit)))
  }

  /** Nothing is left out of a loaded feed for a newer post: every row that is
      not shown is no newer than every post that is. */
  lemma FeedKeepsNewest(rows: seq<FeedRow>, limit: nat)
    ensures var r := GetFeed(rows, Succeeds, limit);
      r.Ok? && forall i, row :: 0 <= i < |r.value| && row in multiset(rows) - multiset(NewestRows(rows, limit)) ==>
        row.post.createdAt <= r.value[i].createdAt
  {
    NewestItems(rows, limit);
  }

  // ---------------------------------------------------------------- writes

  /** `createPost(title, excerpt, imageUrl)`: a post by the signed-in user whose
      content is the excerpt; likes_count takes the table default 0. */
  function Create(s: PostState, user: Option<Id>, title: string, excerpt: string, imageUrl: Option<string>,
                  newId: Id, now: Timestamp, insert: Step): (r: Created)
    ensures user.None? ==> r == Created(s, Err(NotAuthenticated))
    ensures insert.FailsWith? ==> r.after == s && r.result.Err?
    ensures r.result.Ok? <==> user.Some? && insert.Succeeds?
    ensures r.result.Ok? ==>
      r.after == s.(posts := s.posts + [r.result.value])
      && r.result.value.authorId == user.value && r.result.value.content == excerpt
      && r.result.value.excerpt == excerpt && r.result.value.title == title && r.result.value.likesCount == 0
  {
    if user.None? then Created(s, Err(NotAuthenticated))
    else if insert.FailsWith? then Created(s, Err(insert.message))
    else
      var p := Post(newId, user.value, title, excerpt, excerpt, imageUrl, 0, None, now);
      Created(s.(posts := s.posts + [p]), Ok(p))
  }


  /** `deletePost(postId)`: removes the rows with that id and no other. */
  function Delete(s: PostState, postId: Id, delete: Step): (r: Toggled)
    ensures delete.FailsWith? ==> r == Toggled(s, Some(delete.message))
    ensures delete.Succeeds? ==> r.error.None? && r.after.likes == s.likes
    ensures forall p :: p in r.after.posts <==> p in s.posts && (delete.FailsWith? || p.id != postId)
    ensures delete.Succeeds? ==> IsSubsequence(r.after.posts, s.posts)
    ensures delete.Succeeds? ==> r.after.posts == Without(s.posts, postId)
  {
    if delete.FailsWith? then Toggled(s, Some(delete.message))
    else Toggled(s.(posts := Without(s.posts, postId)), None)
  }

  /** The posts table after `delete().eq('id', postId)`. */
  function Without(posts: seq<Post>, postId: Id): (r: seq<Post>)
    ensures forall p :: p in r <==> p in posts && p.id != postId
    ensures IsSubsequence(r, posts)
  {
    var keep := (p: Post) => p.id != postId;
    FilterIsSubsequence(posts, keep);
    Filter(posts, keep)
  }


  function PostCreatedAt(p: Post): int {
    p.createdAt
  }

  /** `getUserPosts(userId)`: the user's posts, newest first, or the query's error. */
  function UserPosts(posts: seq<Post>, userId: Id, query: Step): (r: Result<seq<Post>>)
    ensures query.FailsWith? ==> r == Err(query.message)
    ensures r.Ok? <==> query.Succeeds?
    ensures r.Ok? ==> SortedDesc(r.value, PostCreatedAt)
    ensures r.Ok? ==> multiset(r.value) == multiset(Filter(posts, (p: Post) => p.authorId == userId))
    ensures r.Ok? ==> forall p :: p in r.value <==> p in posts && p.authorId == userId
  {
    if query.FailsWith? then Err(query.message)
    else Ok(SortDesc(Filter(posts, (p: Post) => p.authorId == userId), PostCreatedAt))
  }

  /** The service's tables. */
  class PostTables {
    var posts: seq<Post>
    var likes: set<LikeKey>

    function State(): PostState
      reads this
    {
      PostState(posts, likes)
    }

    constructor (posts: seq<Post>, likes: set<LikeKey>)
      ensures State() == PostState(posts, likes)
    {
      this.posts := posts;
      this.likes := likes;
    }

    /** `toggleLike(postId)`: look the like up, then flip it and move the counter. */
    method ToggleLike(user: Option<Id>, postId: Id, lookup: Step, likeWrite: Step, countWrite: Step)
      returns (error: Option<string>)
      modifies this
      ensures State() == Toggle(old(State()), user, postId, lookup, likeWrite, countWrite).after
      ensures error == Toggle(old(State()), user, postId, lookup, likeWrite, countWrite).error
    {
      if user.None? {
        return Some(NotAuthenticated);
      }
      var k := LikeKey(postId, user.value);
      var existing := lookup.Succeeds? && k in likes;
      if existing {
        if likeWrite.Succeeds? {
          likes := likes - {k};
        }
        if countWrite.Succeeds? {
          posts := Bump(posts, postId, -1);
        }
      } else {
        if likeWrite.Succeeds? {
          likes := likes + {k};
        }
        if countWrite.Succeeds? {
          posts := Bump(posts, postId, 1);
        }
      }
      error := None;
    }

    /** `createPost(title, excerpt, imageUrl)`. */
    method CreatePost(user: Option<Id>, title: string, excerpt: string, imageUrl: Option<string>,
                      newId: Id, now: Timestamp, insert: Step) returns (r: Result<Post>)
      modifies this
      ensures State() == Create(old(State()), user, title, excerpt, imageUrl, newId, now, insert).after
      ensures r == Create(old(State()), user, title, excerpt, imageUrl, newId, now, insert).result
    {
      if user.None? {
        return Err(NotAuthenticated);
      }
      if insert.FailsWith? {
        return Err(insert.message);
      }
      var p := Post(newId, user.value, title, excerpt, excerpt, imageUrl, 0, None, now);
      posts := posts + [p];
      r := Ok(p);
    }

    /** `deletePost(postId)`. */
    method DeletePost(postId: Id, delete: Step) returns (error: Option<string>)
      modifies this
      ensures State() == Delete(old(State()), postId, delete).after
      ensures error == Delete(old(State()), postId, delete).error
    {
      if delete.FailsWith? {
        return Some(delete.message);
      }
      posts := Without(posts, postId);
      error := None;
    }
  }
}
