/** The feed state of the client (`postSlice`): the loading flag, the
    new-post composer flag, the mirrored post and comment lists, and the
    request the like button builds before it is sent to the server. */
module PostSlice {

  datatype Option<+T> = None | Some(value: T)

  /** A post as the server returns it; `liked` lists the accounts that like it. */
  datatype Post = Post(id: int, title: string, userPost: int, createdOn: string, img: string, liked: seq<int>)

  /** A comment as the server returns it; `post` is the id of the post it belongs to. */
  datatype Comment = Comment(id: int, text: string, userComment: int, post: int)

  /** A snapshot of the whole slice. */
  datatype FeedState = FeedState(isLoadingPost: bool, openNewPost: bool, posts: seq<Post>, comments: seq<Comment>)

  /** The placeholder entries the slice starts with, before anything is fetched. */
  const PlaceholderPost := Post(0, "", 0, "", "", [0])
  const PlaceholderComment := Comment(0, "", 0, 0)

  // ---------------------------------------------------------------------
  // Like toggle: the request built from a post's current likers
  // ---------------------------------------------------------------------

  /** The two ways the server is asked to update a post. */
  datatype Verb = Put | Patch

  /** What is sent: the verb, the `liked` entries of the form, and the
      `title` entry, which only the full update carries. */
  datatype LikeRequest = LikeRequest(verb: Verb, liked: seq<int>, title: Option<string>)

  /** No account occurs twice. */
  predicate NoDup(s: seq<int>) {
    forall i, j :: 0 <= i < j < |s| ==> s[i] != s[j]
  }

  /** `s` with every occurrence of `x` dropped; what the scan over the
      current likers copies into the form. */
  function Without(s: seq<int>, x: int): (r: seq<int>)
    ensures |r| <= |s|
    ensures x !in r
    ensures forall y :: y in r ==> y in s
    decreases |s|
  {
    if s == [] then []
    else if s[|s| - 1] == x then Without(s[..|s| - 1], x)
    else Without(s[..|s| - 1], x) + [s[|s| - 1]]
  }

  /** The like-toggle request: the acting account is dropped from the
      likers if present and appended otherwise; only when it was present
      and the current list had exactly one entry is a full update (with
      the title) sent. */
  function ToggleLike(current: seq<int>, loginId: int, title: string): (r: LikeRequest)
    ensures loginId !in current ==> r == LikeRequest(Patch, current + [loginId], None)
    ensures loginId in current ==> r.liked == Without(current, loginId)
    ensures r.verb == Put <==> loginId in current && |current| == 1
    ensures r.verb == Put ==> r.liked == [] && r.title == Some(title)
    ensures r.verb == Patch ==> r.title == None
  {
    var rebuilt := Without(current, loginId);
    if loginId !in current then
      WithoutAbsent(current, loginId);
      LikeRequest(Patch, rebuilt + [loginId], None)
    else if |current| == 1 then
      assert current == [loginId] && current[..0] == [];
      LikeRequest(Put, rebuilt, Some(title))
    else LikeRequest(Patch, rebuilt, None)
  }

  /** The request builder as the thunk runs it: one pass over the current
      likers that raises `isOverlapped` on the acting account and copies
      every other entry, then the choice of verb. */
  method BuildLikeRequest(current: seq<int>, loginId: int, title: string) returns (req: LikeRequest)
    ensures req == ToggleLike(current, loginId, title)
  {
    var isOverlapped := false;
    var uploadData: seq<int> := [];
    for i := 0 to |current|
      invariant uploadData == Without(current[..i], loginId)
      invariant isOverlapped <==> loginId in current[..i]
    {
      assert current[..i + 1][..i] == current[..i];
      assert current[..i + 1] == current[..i] + [current[i]];
      if current[i] == loginId {
        isOverlapped := true;
      } else {
        uploadData := uploadData + [current[i]];
      }
    }
    assert current[..|current|] == current;
    if !isOverlapped {
      uploadData := uploadData + [loginId];
      req := LikeRequest(Patch, uploadData, None);
    } else if |current| == 1 {
      req := LikeRequest(Put, uploadData, Some(title));
    } else {
      req := LikeRequest(Patch, uploadData, None);
    }
  }

  /** Dropping an account that is not there changes nothing. */
  lemma {:induction false} WithoutAbsent(s: seq<int>, x: int)
    requires x !in s
    ensures Without(s, x) == s
    decreases |s|
  {
    if s != [] {
      WithoutAbsent(s[..|s| - 1], x);
      assert s[..|s| - 1] + [s[|s| - 1]] == s;
    }
  }

  /** Dropping distributes over concatenation, so the kept entries stay in
      their original order. */
  lemma {:induction false} WithoutAppend(a: seq<int>, b: seq<int>, x: int)
    ensures Without(a + b, x) == Without(a, x) + Without(b, x)
    decreases |b|
  {
    if b == [] {
      assert a + b == a;
    } else {
      var b' := b[..|b| - 1];
      assert (a + b)[..|a + b| - 1] == a + b';
      WithoutAppend(a, b', x);
    }
  }

  /** Every entry other than `x` keeps its multiplicity; `x` has none left. */
  lemma {:induction false} WithoutMultiset(s: seq<int>, x: int)
    ensures multiset(Without(s, x)) == multiset(s)[x := 0]
    decreases |s|
  {
    if s != [] {
      var s' := s[..|s| - 1];
      assert s == s' + [s[|s| - 1]];
      WithoutMultiset(s', x);
    }
  }

  /** In a duplicate-free list, dropping a present account removes exactly one entry. */
  lemma {:induction false} WithoutNoDupLength(s: seq<int>, x: int)
    requires NoDup(s) && x in s
    ensures |Without(s, x)| == |s| - 1
    decreases |s|
  {
    var s' := s[..|s| - 1];
    assert s == s' + [s[|s| - 1]];
    assert NoDup(s');
    if s[|s| - 1] == x {
      assert x !in s';
      WithoutAbsent(s', x);
    } else {
      WithoutNoDupLength(s', x);
    }
  }

  /** Dropping keeps a duplicate-free list duplicate-free. */
  lemma {:induction false} WithoutNoDup(s: seq<int>, x: int)
    requires NoDup(s)
    ensures NoDup(Without(s, x))
    decreases |s|
  {
    if s != [] {
      var s' := s[..|s| - 1];
      assert s == s' + [s[|s| - 1]];
      assert NoDup(s');
      WithoutNoDup(s', x);
      var last := s[|s| - 1];
      if last != x {
        var w := Without(s', x);
        assert last !in s';
        assert last !in w;
        assert Without(s, x) == w + [last];
        forall i, j | 0 <= i < j < |w| + 1
          ensures (w + [last])[i] != (w + [last])[j]
        {
          if j == |w| {
            assert w[i] in w;
          }
        }
      }
    }
  }

  /** Already liked: the acting account is gone from the outgoing list and
      every other liker keeps its count. */
  lemma LikeRemoves(current: seq<int>, loginId: int, title: string)
    requires loginId in current
    ensures multiset(ToggleLike(current, loginId, title).liked) == multiset(current)[loginId := 0]
  {
    WithoutMultiset(current, loginId);
  }

  /** For a duplicate-free list of likers the length guard coincides with
      "the outgoing list is empty". */
  lemma PutIffEmptyWhenNoDup(current: seq<int>, loginId: int, title: string)
    requires NoDup(current)
    ensures var r := ToggleLike(current, loginId, title);
      r.verb == Put <==> r.liked == []
  {
    if loginId in current {
      WithoutNoDupLength(current, loginId);
    }
  }

  /** With a duplicated liker the two conditions differ: the list empties
      but only a partial update is sent. */
  lemma DuplicateLikerPatchesEmpty()
    ensures ToggleLike([7, 7], 7, "x") == LikeRequest(Patch, [], None)
  {
  }

  /** Toggling keeps the likers duplicate-free. */
  lemma ToggleKeepsNoDup(current: seq<int>, loginId: int, title: string)
    requires NoDup(current)
    ensures NoDup(ToggleLike(current, loginId, title).liked)
  {
    if loginId !in current {
      WithoutAbsent(current, loginId);
    } else {
      WithoutNoDup(current, loginId);
    }
  }

  /** Liking and then unliking gives back the original likers. */
  lemma {:induction false} LikeThenUnlike(current: seq<int>, loginId: int, title: string)
    requires loginId !in current
    ensures ToggleLike(ToggleLike(current, loginId, title).liked, loginId, title).liked == current
  {
    WithoutAppend(current, [loginId], loginId);
    assert Without([loginId], loginId) == [] by {
      assert [loginId][..0] == [];
    }
    WithoutAbsent(current, loginId);
  }

  /** Unliking and then liking again gives back the same likers, the
      acting account moved to the end. */
  lemma {:induction false} UnlikeThenLike(current: seq<int>, loginId: int, title: string)
    requires NoDup(current) && loginId in current
    ensures var again := ToggleLike(ToggleLike(current, loginId, title).liked, loginId, title).liked;
      multiset(again) == multiset(current) && again[|again| - 1] == loginId
  {
    var once := Without(current, loginId);
    WithoutMultiset(current, loginId);
    assert multiset(current)[loginId] == 1 by {
      var k :| 0 <= k < |current| && current[k] == loginId;
      WithoutNoDupLength(current, loginId);
      assert |multiset(once)| == |current| - 1;
    }
  }

  // ---------------------------------------------------------------------
  // Fulfilled responses (extraReducers): each returns a new snapshot
  // ---------------------------------------------------------------------

  /** The posts list with every entry whose id matches `p` replaced by `p`. */
  function ReplaceById(posts: seq<Post>, p: Post): (r: seq<Post>)
    ensures |r| == |posts|
    ensures forall i :: 0 <= i < |r| && posts[i].id == p.id ==> r[i] == p
    ensures forall i :: 0 <= i < |r| && posts[i].id != p.id ==> r[i] == posts[i]
  {
    seq(|posts|, i requires 0 <= i < |posts| => if posts[i].id == p.id then p else posts[i])
  }

  /** A posts fetch replaces the post list and nothing else. */
  function PostsFetched(s: FeedState, payload: seq<Post>): (r: FeedState)
    ensures r.posts == payload
    ensures r.comments == s.comments && r.isLoadingPost == s.isLoadingPost && r.openNewPost == s.openNewPost
  {
    s.(posts := payload)
  }

  /** A created post is appended at the end of the post list. */
  function PostCreated(s: FeedState, payload: Post): (r: FeedState)
    ensures |r.posts| == |s.posts| + 1 && r.posts[..|s.posts|] == s.posts && r.posts[|s.posts|] == payload
    ensures r.comments == s.comments && r.isLoadingPost == s.isLoadingPost && r.openNewPost == s.openNewPost
  {
    s.(posts := s.posts + [payload])
  }

  /** A comments fetch replaces the comment list and nothing else. */
  function CommentsFetched(s: FeedState, payload: seq<Comment>): (r: FeedState)
    ensures r.comments == payload
    ensures r.posts == s.posts && r.isLoadingPost == s.isLoadingPost && r.openNewPost == s.openNewPost
  {
    s.(comments := payload)
  }

  /** A created comment is appended at the end of the comment list. */
  function CommentCreated(s: FeedState, payload: Comment): (r: FeedState)
    ensures |r.comments| == |s.comments| + 1 && r.comments[..|s.comments|] == s.comments
    ensures r.comments[|s.comments|] == payload
    ensures r.posts == s.posts && r.isLoadingPost == s.isLoadingPost && r.openNewPost == s.openNewPost
  {
    s.(comments := s.comments + [payload])
  }

  /** A like response replaces the matching posts in place; the list keeps
      its length, and every other entry and field is unchanged. */
  function LikeUpdated(s: FeedState, payload: Post): (r: FeedState)
    ensures |r.posts| == |s.posts|
    ensures forall i :: 0 <= i < |r.posts| ==> r.posts[i].id == s.posts[i].id
    ensures forall i :: 0 <= i < |r.posts| && s.posts[i].id == payload.id ==> r.posts[i] == payload
    ensures forall i :: 0 <= i < |r.posts| && s.posts[i].id != payload.id ==> r.posts[i] == s.posts[i]
    ensures r.comments == s.comments && r.isLoadingPost == s.isLoadingPost && r.openNewPost == s.openNewPost
  {
    s.(posts := ReplaceById(s.posts, payload))
  }

  /** A response for a post that is not in the list leaves the list as it is. */
  lemma LikeUpdatedAbsent(s: FeedState, payload: Post)
    requires forall i :: 0 <= i < |s.posts| ==> s.posts[i].id != payload.id
    ensures LikeUpdated(s, payload) == s
  {
  }

  /** Applying the same like response twice is the same as applying it once. */
  lemma LikeUpdatedIdempotent(s: FeedState, payload: Post)
    ensures LikeUpdated(LikeUpdated(s, payload), payload) == LikeUpdated(s, payload)
  {
  }

  /** The server responses the slice reacts to, one per thunk. */
  datatype Fulfilled =
    | GetPostsFulfilled(posts: seq<Post>)
    | NewPostFulfilled(post: Post)
    | GetCommentsFulfilled(comments: seq<Comment>)
    | PostCommentFulfilled(comment: Comment)
    | PatchLikedFulfilled(liked: Post)

  /** The extra reducers: one case per response. None of them touches the
      loading or composer flags; those are cleared by separate actions. */
  function ExtraReducer(s: FeedState, a: Fulfilled): (r: FeedState)
    ensures r.isLoadingPost == s.isLoadingPost && r.openNewPost == s.openNewPost
    ensures a.GetPostsFulfilled? || a.NewPostFulfilled? || a.PatchLikedFulfilled? ==> r.comments == s.comments
    ensures a.GetCommentsFulfilled? || a.PostCommentFulfilled? ==> r.posts == s.posts
  {
    match a
    case GetPostsFulfilled(ps) => PostsFetched(s, ps)
    case NewPostFulfilled(p) => PostCreated(s, p)
    case GetCommentsFulfilled(cs) => CommentsFetched(s, cs)
    case PostCommentFulfilled(c) => CommentCreated(s, c)
    case PatchLikedFulfilled(p) => LikeUpdated(s, p)
  }

  // ---------------------------------------------------------------------
  // The store
  // ---------------------------------------------------------------------

  /** The slice as the store holds it; reducers assign its fields in place. */
  class PostStore {
    var isLoadingPost: bool
    var openNewPost: bool
    var posts: seq<Post>
    var comments: seq<Comment>

    function Value(): FeedState
      reads this
    {
      FeedState(isLoadingPost, openNewPost, posts, comments)
    }

    /** The initial state: no request outstanding, composer closed, one
        placeholder post and one placeholder comment. */
    constructor ()
      ensures !isLoadingPost && !openNewPost
      ensures posts == [PlaceholderPost] && comments == [PlaceholderComment]
    {
      isLoadingPost := false;
      openNewPost := false;
      posts := [PlaceholderPost];
      comments := [PlaceholderComment];
    }

    method FetchPostStart()
      modifies this
      ensures Value() == old(Value()).(isLoadingPost := true)
      ensures old(isLoadingPost) ==> Value() == old(Value())
    {
      isLoadingPost := true;
    }

    method FetchPostEnd()
      modifies this
      ensures Value() == old(Value()).(isLoadingPost := false)
      ensures !old(isLoadingPost) ==> Value() == old(Value())
    {
      isLoadingPost := false;
    }

    method SetOpenNewPost()
      modifies this
      ensures Value() == old(Value()).(openNewPost := true)
      ensures old(openNewPost) ==> Value() == old(Value())
    {
      openNewPost := true;
    }

    method ResetOpenNewPost()
      modifies this
      ensures Value() == old(Value()).(openNewPost := false)
      ensures !old(openNewPost) ==> Value() == old(Value())
    {
      openNewPost := false;
    }

    /** A response arrived: the slice becomes what the extra reducer returns. */
    method Fulfil(a: Fulfilled)
      modifies this
      ensures Value() == ExtraReducer(old(Value()), a)
    {
      var r := ExtraReducer(Value(), a);
      isLoadingPost, openNewPost, posts, comments := r.isLoadingPost, r.openNewPost, r.posts, r.comments;
    }
  }
}
