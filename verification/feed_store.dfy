/**
 * The feed store (src/stores/feedStore.ts): the loaded posts and the paging
 * flags of the feed.
 */
module FeedStore {
  import opened Domain
  import Seqs

  datatype FeedState = FeedState(posts: seq<Post>, isLoading: bool, hasMore: bool, page: int)

  const Initial := FeedState([], false, true, 1)

  /** Posts with any identity other than `id`. */
  function OtherPost(id: string): Post -> bool {
    (p: Post) => p.id != id
  }

  function SetPosts(s: FeedState, posts: seq<Post>): (r: FeedState)
    ensures r.posts == posts
    ensures r.isLoading == s.isLoading && r.hasMore == s.hasMore && r.page == s.page
  {
    s.(posts := posts)
  }

  /** The next page's posts go after the loaded ones, both in their own order. */
  function AppendPosts(s: FeedState, posts: seq<Post>): (r: FeedState)
    ensures |r.posts| == |s.posts| + |posts|
    ensures r.posts[..|s.posts|] == s.posts && r.posts[|s.posts|..] == posts
    ensures r.isLoading == s.isLoading && r.hasMore == s.hasMore && r.page == s.page
  {
    s.(posts := s.posts + posts)
  }

  /** Appending two batches one after the other is appending their concatenation. */
  lemma AppendPostsTwice(s: FeedState, a: seq<Post>, b: seq<Post>)
    ensures AppendPosts(AppendPosts(s, a), b) == AppendPosts(s, a + b)
  {
    assert s.posts + a + b == s.posts + (a + b);
  }

  /** Replaces every post with the identity of `post` by `post`; the others stay where they were. */
  function UpdatePost(posts: seq<Post>, post: Post): (r: seq<Post>)
    ensures |r| == |posts|
    ensures forall i :: 0 <= i < |posts| && posts[i].id == post.id ==> r[i] == post
    ensures forall i :: 0 <= i < |posts| && posts[i].id != post.id ==> r[i] == posts[i]
  {
    seq(|posts|, i requires 0 <= i < |posts| => if posts[i].id == post.id then post else posts[i])
  }

  /** An update for a post that is not loaded changes nothing. */
  lemma UpdateAbsentPost(posts: seq<Post>, post: Post)
    requires forall p :: p in posts ==> p.id != post.id
    ensures UpdatePost(posts, post) == posts
  {
  }

  /** Updating with the same post twice is updating once. */
  lemma UpdatePostIdempotent(posts: seq<Post>, post: Post)
    ensures UpdatePost(UpdatePost(posts, post), post) == UpdatePost(posts, post)
  {
  }

  /** After an update `post` is loaded exactly when a post with its identity was. */
  lemma UpdatePostFound(posts: seq<Post>, post: Post)
    ensures post in UpdatePost(posts, post) <==> exists p :: p in posts && p.id == post.id
  {
    var r := UpdatePost(posts, post);
    if post in r {
      var i :| 0 <= i < |r| && r[i] == post;
      assert posts[i] in posts;
    }
    if exists p :: p in posts && p.id == post.id {
      var p :| p in posts && p.id == post.id;
      var i :| 0 <= i < |posts| && posts[i] == p;
      assert r[i] == post;
    }
  }

  function UpdatePostIn(s: FeedState, post: Post): (r: FeedState)
    ensures r.posts == UpdatePost(s.posts, post)
    ensures r.isLoading == s.isLoading && r.hasMore == s.hasMore && r.page == s.page
  {
    s.(posts := UpdatePost(s.posts, post))
  }

  /** Drops every post with identity `id`; the others keep their order. */
  function DeletePost(posts: seq<Post>, id: string): (r: seq<Post>)
    ensures forall p :: p in r ==> p.id != id && p in posts
    ensures forall p :: p in posts && p.id != id ==> p in r
    ensures |r| <= |posts|
    ensures |r| == Seqs.Count(posts, OtherPost(id))
  {
    Seqs.FilterCount(posts, OtherPost(id));
    Seqs.Filter(posts, OtherPost(id))
  }

  lemma DeletePostKeepsOrder(posts: seq<Post>, id: string)
    ensures Seqs.IsSubsequence(DeletePost(posts, id), posts)
  {
    Seqs.FilterIsSubsequence(posts, OtherPost(id));
  }

  lemma DeletePostIdempotent(posts: seq<Post>, id: string)
    ensures DeletePost(DeletePost(posts, id), id) == DeletePost(posts, id)
  {
    Seqs.FilterIdempotent(posts, OtherPost(id));
  }

  /** Deleting an id that is not loaded changes nothing. */
  lemma DeleteAbsentPost(posts: seq<Post>, id: string)
    requires forall p :: p in posts ==> p.id != id
    ensures DeletePost(posts, id) == posts
  {
    Seqs.FilterKeepsAll(posts, OtherPost(id));
  }

  function DeletePostIn(s: FeedState, id: string): (r: FeedState)
    ensures r.posts == DeletePost(s.posts, id)
    ensures r.isLoading == s.isLoading && r.hasMore == s.hasMore && r.page == s.page
  {
    s.(posts := DeletePost(s.posts, id))
  }

  /** Back to the state the store starts in, whatever the state was. */
  function Reset(s: FeedState): (r: FeedState)
    ensures r == Initial
    ensures r.posts == [] && !r.isLoading && r.hasMore && r.page == 1
  {
    FeedState([], false, true, 1)
  }
}
