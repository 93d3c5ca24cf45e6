/** The post handlers: create, merge-update, like, dislike and comment. The
    loaded post is a `Post?` argument (`null` when no post has the requested
    id); the pure functions `After...` state what each handler does to the
    reactions, and the handler methods are proved to follow them. */
module PostController {
  import opened Common
  import opened PostModel

  const NoLiker: HttpError := HttpError(404, "Failed to like, current user not found")
  const NoDisliker: HttpError := HttpError(404, "Failed to dislike,current user Not found")
  const LikedPostNotFound: HttpError := HttpError(404, "Post not found")
  const PostNotFound: HttpError := HttpError(404, "Post Not found")
  const CreatorNotFound: HttpError := HttpError(404, "User not found!")
  /** Mongoose's validation error when `createdBy` or `title` is missing; it is
      thrown with the status still 200. */
  const PostValidationFailed: HttpError := HttpError(200, "Post validation failed")

  /** A loaded post document. */
  class Post {
    var createdBy: Id
    var title: string
    var body: PostBody
    var metaData: MetaData
    var createdAt: int

    function Doc(): PostDoc
      reads this
    {
      PostDoc(createdBy, title, body, metaData, createdAt)
    }

    constructor (createdBy: Id, title: string, body: PostBody, metaData: MetaData, createdAt: int)
      ensures Doc() == PostDoc(createdBy, title, body, metaData, createdAt)
    {
      this.createdBy := createdBy;
      this.title := title;
      this.body := body;
      this.metaData := metaData;
      this.createdAt := createdAt;
    }
  }

  // ---------------------------------------------------------------------------
  // Reactions

  /** The reactions are well formed when nobody is listed twice and nobody both
      likes and dislikes the post. */
  predicate WellFormed(m: MetaData)
  {
    NoDup(m.likes) && NoDup(m.dislikes) && forall u :: u in m.likes ==> u !in m.dislikes
  }

  /** `likePost` after its guards: an existing like changes nothing; otherwise
      the first dislike by the user is removed and the user is appended to the likes. */
  function AfterLike(m: MetaData, userId: Id): (r: MetaData)
    ensures r.comments == m.comments
    ensures userId in m.likes ==> r == m
    ensures userId !in m.likes ==> r.likes == m.likes + [userId] && r.dislikes == RemoveFirst(m.dislikes, userId)
    ensures userId in r.likes
  {
    if userId in m.likes then m
    else m.(likes := m.likes + [userId], dislikes := RemoveFirst(m.dislikes, userId))
  }

  /** `dislikePost` after its guards, as written. An existing dislike changes
      nothing; a user who has not liked is appended to the dislikes; for a user
      who has liked, `likes.pop(userId, 0)` drops the LAST like whoever gave it
      (`pop` takes no arguments) and the user is appended to the dislikes. */
  function AfterDislike(m: MetaData, userId: Id): (r: MetaData)
    ensures r.comments == m.comments
    ensures userId in m.dislikes ==> r == m
    ensures userId !in m.dislikes ==> r.dislikes == m.dislikes + [userId]
    ensures userId !in m.dislikes && userId !in m.likes ==> r.likes == m.likes
    ensures userId !in m.dislikes && userId in m.likes ==> r.likes == m.likes[..|m.likes| - 1]
  {
    if userId in m.dislikes then m
    else if userId !in m.likes then m.(dislikes := m.dislikes + [userId])
    else m.(likes := m.likes[..|m.likes| - 1], dislikes := m.dislikes + [userId])
  }

  /** Liking twice is liking once. */
  lemma LikeIdempotent(m: MetaData, userId: Id)
    ensures AfterLike(AfterLike(m, userId), userId) == AfterLike(m, userId)
  {
  }

  /** Disliking twice is disliking once. */
  lemma DislikeIdempotent(m: MetaData, userId: Id)
    ensures AfterDislike(AfterDislike(m, userId), userId) == AfterDislike(m, userId)
  {
  }

  /** After a like the user is the last liker, and no longer a disliker when the
      dislikes held the user at most once. */
  lemma LikeMovesUserToLikes(m: MetaData, userId: Id)
    requires userId !in m.likes
    ensures Last(AfterLike(m, userId).likes) == userId
    ensures NoDup(m.dislikes) ==> userId !in AfterLike(m, userId).dislikes
  {
    if NoDup(m.dislikes) {
      NoDupRemoveFirst(m.dislikes, userId);
    }
  }

  /** Liking keeps the reactions well formed. */
  lemma LikeKeepsWellFormed(m: MetaData, userId: Id)
    requires WellFormed(m)
    ensures WellFormed(AfterLike(m, userId))
  {
    if userId !in m.likes {
      NoDupAppend(m.likes, userId);
      NoDupRemoveFirst(m.dislikes, userId);
    }
  }

  /** Disliking a liked post keeps the reactions well formed exactly when the
      disliker is the last liker: otherwise `pop` removes someone else's like
      and the disliker ends up both liking and disliking. */
  lemma DislikeKeepsWellFormedIffLastLiker(m: MetaData, userId: Id)
    requires WellFormed(m)
    requires userId in m.likes
    ensures WellFormed(AfterDislike(m, userId)) <==> Last(m.likes) == userId
  {
    var r := AfterDislike(m, userId);
    assert userId !in m.dislikes;
    assert m.likes == r.likes + [Last(m.likes)];
    if Last(m.likes) == userId {
      forall u | u in r.likes ensures u !in r.dislikes {
        var k :| 0 <= k < |r.likes| && r.likes[k] == u;
        assert m.likes[k] == u && k != |m.likes| - 1;
      }
      forall a, b | 0 <= a < b < |r.dislikes| ensures r.dislikes[a] != r.dislikes[b] {
        if b == |m.dislikes| { assert r.dislikes[a] == m.dislikes[a]; }
      }
    } else {
      assert userId in r.likes && userId in r.dislikes;
    }
  }

  /** The `pop` quirk on a concrete post: `u` and `v` like it, `u` dislikes it;
      `v`'s like is lost and `u` both likes and dislikes it. */
  lemma DislikeDropsAnotherLike(u: Id, v: Id)
    requires u != v
    ensures var m := MetaData([u, v], [], []);
            AfterDislike(m, u) == MetaData([u], [u], []) && WellFormed(m) && !WellFormed(AfterDislike(m, u))
  {
    var m := MetaData([u, v], [], []);
    assert u in m.likes && [u, v][..1] == [u];
  }

  /** Disliking a post one has not liked leaves the likes alone and keeps the
      reactions well formed. */
  lemma DislikeWithoutLikeKeepsWellFormed(m: MetaData, userId: Id)
    requires WellFormed(m)
    requires userId !in m.likes
    ensures AfterDislike(m, userId).likes == m.likes
    ensures WellFormed(AfterDislike(m, userId))
  {
    var r := AfterDislike(m, userId);
    if userId !in m.dislikes {
      forall a, b | 0 <= a < b < |r.dislikes| ensures r.dislikes[a] != r.dislikes[b] {
        if b == |m.dislikes| { assert r.dislikes[a] == m.dislikes[a]; }
      }
    }
  }

  // ---------------------------------------------------------------------------
  // Handlers

  /** `likePost` up to the save; the push notification to the author is not
      part of this model. `userId` is the request's field, absent or empty when falsy. */
  method LikePost(post: Post?, userId: Option<Id>) returns (r: Result<MetaData>)
    modifies post
    ensures !Truthy(userId) ==> r == Err(NoLiker)
    ensures Truthy(userId) && post == null ==> r == Err(LikedPostNotFound)
    ensures post != null && !Truthy(userId) ==> post.Doc() == old(post.Doc())
    ensures post != null && Truthy(userId) ==>
              && post.metaData == AfterLike(old(post.metaData), userId.value)
              && post.Doc() == old(post.Doc()).(metaData := post.metaData)
              && r == Ok(post.metaData)
  {
    if !Truthy(userId) {
      return Err(NoLiker);
    }
    if post == null {
      return Err(LikedPostNotFound);
    }
    var u := userId.value;
    if u in post.metaData.likes {
      return Ok(post.metaData);
    }
    if u in post.metaData.dislikes {
      var index := IndexOf(post.metaData.dislikes, u);
      post.metaData := post.metaData.(dislikes := RemoveAt(post.metaData.dislikes, index));
    }
    post.metaData := post.metaData.(likes := post.metaData.likes + [u]);
    r := Ok(post.metaData);
  }

  method DislikePost(post: Post?, userId: Option<Id>) returns (r: Result<MetaData>)
    modifies post
    ensures !Truthy(userId) ==> r == Err(NoDisliker)
    ensures Truthy(userId) && post == null ==> r == Err(PostNotFound)
    ensures post != null && !Truthy(userId) ==> post.Doc() == old(post.Doc())
    ensures post != null && Truthy(userId) ==>
              && post.metaData == AfterDislike(old(post.metaData), userId.value)
              && post.Doc() == old(post.Doc()).(metaData := post.metaData)
              && r == Ok(post.metaData)
  {
    if !Truthy(userId) {
      return Err(NoDisliker);
    }
    if post == null {
      return Err(PostNotFound);
    }
    var u := userId.value;
    if u in post.metaData.dislikes {
      return Ok(post.metaData);
    }
    if u !in post.metaData.likes {
      post.metaData := post.metaData.(dislikes := post.metaData.dislikes + [u]);
      return Ok(post.metaData);
    }
    post.metaData := post.metaData.(likes := post.metaData.likes[..|post.metaData.likes| - 1]);
    post.metaData := post.metaData.(dislikes := post.metaData.dislikes + [u]);
    r := Ok(post.metaData);
  }

  /** `addComment`: one comment appended at the end. */
  method AddComment(post: Post?, userId: Option<Id>, body: Option<string>, schemaLoadedAt: int) returns (r: Result<PostDoc>)
    modifies post
    ensures post == null ==> r == Err(PostNotFound)
    ensures post != null ==>
              && post.metaData.comments == old(post.metaData.comments) + [NewComment(userId, body, schemaLoadedAt)]
              && post.Doc() == old(post.Doc()).(metaData := old(post.metaData).(comments := post.metaData.comments))
              && r == Ok(post.Doc())
  {
    if post == null {
      return Err(PostNotFound);
    }
    post.metaData := post.metaData.(comments := post.metaData.comments + [NewComment(userId, body, schemaLoadedAt)]);
    r := Ok(post.Doc());
  }

  // ---------------------------------------------------------------------------
  // updatePost

  /** The fields `updatePost` reads from the request body. */
  datatype PostUpdate = PostUpdate(title: Option<string>, text: Option<string>, image: Option<string>, url: Option<string>)

  /** `field = req || stored` for title, text, image and url. */
  function MergeUpdate(p: PostDoc, u: PostUpdate): (r: PostDoc)
    ensures r.createdBy == p.createdBy && r.metaData == p.metaData && r.createdAt == p.createdAt
  {
    p.(title := OrString(u.title, p.title),
       body := PostBody(OrElse(u.text, p.body.text), OrElse(u.image, p.body.image), OrElse(u.url, p.body.url)))
  }

  /** Each field takes the new value exactly when that value is non-empty. */
  lemma MergeUpdateFieldwise(p: PostDoc, u: PostUpdate)
    ensures MergeUpdate(p, u).title == if Truthy(u.title) then u.title.value else p.title
    ensures Truthy(u.text) ==> MergeUpdate(p, u).body.text == u.text
    ensures !Truthy(u.text) ==> MergeUpdate(p, u).body.text == p.body.text
    ensures Truthy(u.image) ==> MergeUpdate(p, u).body.image == u.image
    ensures !Truthy(u.image) ==> MergeUpdate(p, u).body.image == p.body.image
    ensures Truthy(u.url) ==> MergeUpdate(p, u).body.url == u.url
    ensures !Truthy(u.url) ==> MergeUpdate(p, u).body.url == p.body.url
  {
  }

  /** An update with no non-empty field changes nothing, and repeating an update
      changes nothing more. */
  lemma MergeUpdateIdempotent(p: PostDoc, u: PostUpdate)
    ensures !Truthy(u.title) && !Truthy(u.text) && !Truthy(u.image) && !Truthy(u.url) ==> MergeUpdate(p, u) == p
    ensures MergeUpdate(MergeUpdate(p, u), u) == MergeUpdate(p, u)
  {
  }

  method UpdatePost(post: Post?, u: PostUpdate) returns (r: Result<PostDoc>)
    modifies post
    ensures post == null ==> r == Err(PostNotFound)
    ensures post != null ==> post.Doc() == MergeUpdate(old(post.Doc()), u) && r == Ok(post.Doc())
  {
    if post == null {
      return Err(PostNotFound);
    }
    post.title := OrString(u.title, post.title);
    post.body := post.body.(text := OrElse(u.text, post.body.text));
    post.body := post.body.(image := OrElse(u.image, post.body.image));
    post.body := post.body.(url := OrElse(u.url, post.body.url));
    r := Ok(post.Doc());
  }

  // ---------------------------------------------------------------------------
  // createPost

  /** `createPost`. The post is stored first (`stored`), then the author is
      looked up: a missing author answers 404 although the post was already
      created. The author's `profileData.postCount++` targets a path the user
      schema does not declare, so nothing about the author changes. A missing
      `createdBy` or empty `title` fails Mongoose validation before anything is stored. */
  method CreatePost(createdBy: Option<Id>, title: Option<string>, body: Option<PostBody>, metaData: Option<MetaData>,
                    creatorExists: bool, now: int) returns (stored: Post?, r: Result<Post>)
    ensures !Truthy(createdBy) || !Truthy(title) ==> stored == null && r == Err(PostValidationFailed)
    ensures Truthy(createdBy) && Truthy(title) ==>
              && stored != null && fresh(stored)
              && stored.Doc() == PostDoc(createdBy.value, title.value, if body.Some? then body.value else EmptyBody,
                                         if metaData.Some? then metaData.value else EmptyMetaData, now)
              && (if creatorExists then r.Ok? && r.value == stored else r == Err(CreatorNotFound))
  {
    if !Truthy(createdBy) || !Truthy(title) {
      return null, Err(PostValidationFailed);
    }
    var post := new Post(createdBy.value, title.value, if body.Some? then body.value else EmptyBody,
                         if metaData.Some? then metaData.value else EmptyMetaData, now);
    stored := post;
    if !creatorExists {
      return stored, Err(CreatorNotFound);
    }
    r := Ok(post);
  }
}
