/** The post document (author, title, body, reactions and comments) with the
    scheduled job that deletes posts older than a week. */
module PostModel {
  import opened Common
  import Pruning

  /** `body.text`, `body.image` and `body.url`, each absent until set. */
  datatype PostBody = PostBody(text: Option<string>, image: Option<string>, url: Option<string>)

  const EmptyBody: PostBody := PostBody(None, None, None)

  /** A comment as stored: `sentBy` and `body` as the request gave them. */
  datatype Comment = Comment(sentBy: Option<Id>, body: Option<string>, createdAt: int)

  /** `metaData`: the users who liked and disliked the post, and its comments. */
  datatype MetaData = MetaData(likes: seq<Id>, dislikes: seq<Id>, comments: seq<Comment>)

  const EmptyMetaData: MetaData := MetaData([], [], [])

  /** The value of a post document; `createdAt` is the timestamp Mongoose sets on creation. */
  datatype PostDoc = PostDoc(createdBy: Id, title: string, body: PostBody, metaData: MetaData, createdAt: int)

  /** A comment pushed without a `createdAt` gets the schema default
      `default: new Date()`, evaluated once when the schema is defined: every
      such comment gets `schemaLoadedAt`, the time the server loaded the model. */
  function NewComment(sentBy: Option<Id>, body: Option<string>, schemaLoadedAt: int): (c: Comment)
    ensures c.sentBy == sentBy && c.body == body
    ensures c.createdAt == schemaLoadedAt
  {
    Comment(sentBy, body, schemaLoadedAt)
  }

  /** Two comments added at any two moments carry the same `createdAt`. */
  lemma CommentsShareCreatedAt(sentBy1: Option<Id>, body1: Option<string>, sentBy2: Option<Id>, body2: Option<string>, schemaLoadedAt: int)
    ensures NewComment(sentBy1, body1, schemaLoadedAt).createdAt == NewComment(sentBy2, body2, schemaLoadedAt).createdAt
  {
  }

  // ---------------------------------------------------------------------------
  // deletePosts

  const PostRetentionDays: int := 7

  /** The period of the `setInterval` that reruns the job. */
  const PostCleanupPeriodMs: int := 7 * 24 * 60 * 60 * 1000

  /** `moment().subtract(7, 'days')` for the time `now` in milliseconds. */
  function PostCutoff(now: int): int
  {
    now - PostRetentionDays * Pruning.DayMs
  }

  function PostTime(p: PostDoc): int
  {
    p.createdAt
  }

  /** `deletePosts`: the posts left after `deleteMany({ createdAt: { $lt: cutoff } })` at time `now`. */
  function DeletePosts(posts: seq<PostDoc>, now: int): (r: seq<PostDoc>)
    ensures |r| <= |posts|
    ensures forall p :: p in r ==> p in posts && p.createdAt >= PostCutoff(now)
  {
    Pruning.KeepSince(posts, PostTime, PostCutoff(now))
  }

  /** The job runs weekly and deletes posts more than a week old. */
  lemma PostCleanupTiming(now: int)
    ensures PostCleanupPeriodMs == 604800000
    ensures PostCutoff(now) == now - 604800000
  {
  }

  /** Exactly the posts before the cut-off go; a post at the cut-off stays. */
  lemma DeletePostsExact(posts: seq<PostDoc>, now: int, p: PostDoc)
    ensures p.createdAt < PostCutoff(now) ==> p !in DeletePosts(posts, now)
    ensures p.createdAt >= PostCutoff(now) ==> multiset(DeletePosts(posts, now))[p] == multiset(posts)[p]
  {
    Pruning.KeepSinceExact(posts, PostTime, PostCutoff(now));
  }

  /** Posts at or after the cut-off are untouched, in place. */
  lemma DeletePostsKeepsRecent(posts: seq<PostDoc>, now: int)
    requires forall p :: p in posts ==> p.createdAt >= PostCutoff(now)
    ensures DeletePosts(posts, now) == posts
  {
    Pruning.KeepSinceKeepsRecent(posts, PostTime, PostCutoff(now));
  }

  /** A second run at the same time deletes nothing more. */
  lemma DeletePostsIdempotent(posts: seq<PostDoc>, now: int)
    ensures DeletePosts(DeletePosts(posts, now), now) == DeletePosts(posts, now)
  {
    Pruning.KeepSinceIdempotent(posts, PostTime, PostCutoff(now));
  }
}
