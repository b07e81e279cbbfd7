/** The post feed: `transformPost`, which maps an SDK post to the feed's record with
    defaults, and the `fetchUserPosts` pagination state. */
module UserPostFeed {
  import opened Lens

  // ---- The SDK's post, as much of it as `transformPost` reads ----

  /** `post.metadata`; `content` is `None` when the metadata has no `content` key. */
  datatype RawMetadata = RawMetadata(content: Option<string>)
  datatype RawUsername = RawUsername(localName: Option<string>)
  datatype RawAuthorMetadata = RawAuthorMetadata(displayName: Option<string>, picture: Option<string>)
  datatype RawAuthor = RawAuthor(username: Option<RawUsername>, metadata: Option<RawAuthorMetadata>)
  datatype RawStats = RawStats(comments: Option<int>, reposts: Option<int>, quotes: Option<int>, upvotes: Option<int>)
  datatype RawPost = RawPost(
    id: string,
    createdAt: string,
    metadata: Option<RawMetadata>,
    author: Option<RawAuthor>,  // `post.by`
    stats: Option<RawStats>,
    root: Option<string>,
    quoteOf: Option<string>,
    commentOn: Option<string>)

  /** The page `fetchPosts` returns: its items and `pageInfo.next`. */
  datatype Page = Page(items: seq<RawPost>, next: Option<string>)

  // ---- The feed's own record ----

  datatype Author = Author(handle: Option<string>, name: Option<string>, picture: Option<string>)
  datatype Stats = Stats(comments: int, reposts: int, quotes: int, upvotes: int)
  datatype Post = FeedPost(
    id: string,
    timestamp: string,
    content: Option<string>,
    author: Author,
    stats: Stats,
    root: Option<string>,
    quoteOf: Option<string>,
    commentOn: Option<string>)

  const LoadFailed := "Failed to load posts"

  /** An optional count, 0 when missing. */
  function CountOr0(n: Option<int>): (c: int)
    ensures n.None? ==> c == 0
    ensures n.Some? ==> c == n.value
  {
    n.GetOr(0)
  }

  /** The author's handle: the username's local name when there is one and it is non-empty,
      `null` otherwise. */
  function Handle(a: Option<RawAuthor>): (r: Option<string>)
    ensures r.Some? <==> a.Some? && a.value.username.Some? && Present(a.value.username.value.localName)
    ensures r.Some? ==> r == a.value.username.value.localName
  {
    if a.Some? && a.value.username.Some? then OrNull(a.value.username.value.localName) else None
  }

  /** The author's name: the metadata's display name when there is one and it is non-empty. */
  function DisplayName(a: Option<RawAuthor>): (r: Option<string>)
    ensures r.Some? <==> a.Some? && a.value.metadata.Some? && Present(a.value.metadata.value.displayName)
    ensures r.Some? ==> r == a.value.metadata.value.displayName
  {
    if a.Some? && a.value.metadata.Some? then OrNull(a.value.metadata.value.displayName) else None
  }

  /** The author's picture: the metadata's picture when there is one and it is non-empty. */
  function Picture(a: Option<RawAuthor>): (r: Option<string>)
    ensures r.Some? <==> a.Some? && a.value.metadata.Some? && Present(a.value.metadata.value.picture)
    ensures r.Some? ==> r == a.value.metadata.value.picture
  {
    if a.Some? && a.value.metadata.Some? then OrNull(a.value.metadata.value.picture) else None
  }

  /** `transformPost`: keeps the id, renames `createdAt` to `timestamp`, reads the content only
      when the metadata has one, keeps a non-empty handle, name or picture and makes a missing or
      empty one `null`, counts a missing statistic as 0 and keeps only the ids of `root`,
      `quoteOf` and `commentOn`. */
  function TransformPost(p: RawPost): (r: Post)
    ensures r.id == p.id && r.timestamp == p.createdAt
    ensures p.metadata.None? ==> r.content.None?
    ensures p.metadata.Some? ==> r.content == p.metadata.value.content
    ensures p.author.None? ==> r.author == Author(None, None, None)
    ensures r.author.handle ==
              (if p.author.Some? && p.author.value.username.Some? then OrNull(p.author.value.username.value.localName) else None)
    ensures r.author.name ==
              (if p.author.Some? && p.author.value.metadata.Some? then OrNull(p.author.value.metadata.value.displayName) else None)
    ensures r.author.picture ==
              (if p.author.Some? && p.author.value.metadata.Some? then OrNull(p.author.value.metadata.value.picture) else None)
    ensures r.author.handle.Some? ==> r.author.handle.value != ""
    ensures r.author.name.Some? ==> r.author.name.value != ""
    ensures r.author.picture.Some? ==> r.author.picture.value != ""
    ensures p.stats.None? ==> r.stats == Stats(0, 0, 0, 0)
    ensures p.stats.Some? ==> r.stats == Stats(CountOr0(p.stats.value.comments), CountOr0(p.stats.value.reposts),
                                               CountOr0(p.stats.value.quotes), CountOr0(p.stats.value.upvotes))
    ensures r.root == p.root && r.quoteOf == p.quoteOf && r.commentOn == p.commentOn
  {
    FeedPost(
      p.id,
      p.createdAt,
      if p.metadata.Some? then p.metadata.value.content else None,
      Author(Handle(p.author), DisplayName(p.author), Picture(p.author)),
      match p.stats
      case None => Stats(0, 0, 0, 0)
      case Some(s) => Stats(s.comments.GetOr(0), s.reposts.GetOr(0), s.quotes.GetOr(0), s.upvotes.GetOr(0)),
      p.root,
      p.quoteOf,
      p.commentOn)
  }

  /** The page's items, each transformed, in order. */
  function TransformAll(items: seq<RawPost>): (r: seq<Post>)
    ensures |r| == |items|
    ensures forall i :: 0 <= i < |items| ==> r[i] == TransformPost(items[i])
  {
    seq(|items|, i requires 0 <= i < |items| => TransformPost(items[i]))
  }

  /** The next cursor of a page: absent when `pageInfo.next` is missing or empty. */
  function NextCursor(page: Page): (c: Option<string>)
    ensures c.Some? <==> Present(page.next)
    ensures c.Some? ==> c == page.next && c.value != ""
  {
    OrNull(page.next)
  }

  /** Mapping a concatenation of pages is concatenating their mappings: appending a page
      never reorders or rewrites the posts already shown. */
  lemma {:induction false} TransformAppend(xs: seq<RawPost>, ys: seq<RawPost>)
    ensures TransformAll(xs + ys) == TransformAll(xs) + TransformAll(ys)
  {
    var l, r := TransformAll(xs + ys), TransformAll(xs) + TransformAll(ys);
    assert |l| == |r|;
    forall i | 0 <= i < |l| ensures l[i] == r[i] {
      if i < |xs| { assert (xs + ys)[i] == xs[i]; } else { assert (xs + ys)[i] == ys[i - |xs|]; }
    }
  }

  /** The feed's `useState` hooks. */
  class Feed {
    var posts: seq<Post>
    var isLoading: bool
    var error: Option<string>
    var cursor: Option<string>
    var hasMore: bool

    /** A stored cursor is never empty and always means there is more to load. */
    ghost predicate Valid()
      reads this
    {
      cursor.Some? ==> hasMore && cursor.value != ""
    }

    /** The initial state: no posts, loading, no error, no cursor, more to load. */
    constructor ()
      ensures Valid()
      ensures posts == [] && isLoading && error.None? && cursor.None? && hasMore
    {
      posts := [];
      isLoading := true;
      error := None;
      cursor := None;
      hasMore := true;
    }

    /** `fetchUserPosts(reset)`. Without a profile or with nothing more to load it does
        nothing, even on a reset. Otherwise it requests the page after the stored cursor (or
        the first page, on a reset); a page replaces the posts on a reset and is appended
        otherwise, and the new cursor decides `hasMore`; a failure only sets the error. By
        `Valid`, a stored cursor is always followed. */
    method FetchUserPosts(profileId: string, reset: bool, response: Attempt<LensResult<Page>>)
      returns (calls: seq<Call>)
      requires Valid()
      modifies this
      ensures Valid()
      ensures profileId == "" || !old(hasMore) ==> unchanged(this) && calls == []
      ensures profileId != "" && old(hasMore) ==>
                calls == [FetchPosts(profileId, if reset then None else old(cursor))] && !isLoading
      ensures profileId != "" && !reset && old(cursor).Some? ==> calls == [FetchPosts(profileId, old(cursor))]
      ensures profileId != "" && old(hasMore) && Succeeds(response) ==>
                var page := response.value.value;
                posts == (if reset then [] else old(posts)) + TransformAll(page.items) &&
                cursor == NextCursor(page) && hasMore == cursor.Some? && error.None?
      ensures profileId != "" && old(hasMore) && !Succeeds(response) ==>
                posts == old(posts) && cursor == old(cursor) && hasMore == old(hasMore) &&
                error == Some(LoadFailed)
    {
      calls := [];
      if profileId == "" || !hasMore {
        return;
      }
      isLoading := true;
      error := None;
      calls := [FetchPosts(profileId, if reset then None else cursor)];
      if response.Done? && response.value.Ok? {
        var page := response.value.value;
        var postsData := TransformAll(page.items);
        posts := if reset then postsData else posts + postsData;
        cursor := NextCursor(page);
        hasMore := Present(page.next);
        isLoading := false;
      } else {
        error := Some(LoadFailed);
        isLoading := false;
      }
    }
  }
}
