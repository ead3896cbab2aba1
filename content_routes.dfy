/**
 * The content rules of backend/routes/content_routes.py: slug generation,
 * tag stripping and excerpts, the author filter of the post listing and
 * statistics, visibility of private posts, the update rules, and slug
 * de-duplication for new pages.
 *
 * Characters are classified as ASCII: a word character is a letter, a digit
 * or '_', and whitespace is one of the six ASCII space characters.
 */
module ContentRoutes {
  import opened Common
  import opened Models
  import opened Store
  import opened Auth

  const NotFound := 404
  const InternalServerError := 500

  // ---------------------------------------------------------------------------
  // generate_slug
  // ---------------------------------------------------------------------------

  /** `\w` */
  predicate IsWordChar(c: char) {
    ('a' <= c <= 'z') || ('A' <= c <= 'Z') || ('0' <= c <= '9') || c == '_'
  }

  /** `\s`: space, tab, newline, vertical tab, form feed, carriage return. */
  predicate IsSpaceChar(c: char) {
    c == ' ' || c == '\t' || c == '\n' || c == '\r' || c as int == 11 || c as int == 12
  }

  /** `[-\s]` */
  predicate IsSep(c: char) {
    c == '-' || IsSpaceChar(c)
  }

  /** `re.sub(r'[^\w\s-]', '', s)`: keeps word characters, whitespace and '-'. */
  function KeepSlugChars(s: string): (r: string)
    ensures |r| <= |s|
    ensures forall i | 0 <= i < |r| :: IsWordChar(r[i]) || IsSep(r[i])
    ensures forall i | 0 <= i < |r| :: r[i] in s
  {
    if s == [] then []
    else (if IsWordChar(s[0]) || IsSep(s[0]) then [s[0]] else []) + KeepSlugChars(s[1..])
  }

  /** The input without its leading separators. */
  function DropSeps(s: string): (r: string)
    ensures |r| <= |s| && r == s[|s| - |r|..]
    ensures r != [] ==> !IsSep(r[0])
    ensures forall i | 0 <= i < |s| - |r| :: IsSep(s[i])
  {
    if s != [] && IsSep(s[0]) then DropSeps(s[1..]) else s
  }

  /** `re.sub(r'[-\s]+', '-', s)`: every maximal run of separators becomes one '-'. */
  function Collapse(s: string): (r: string)
    decreases |s|
  {
    if s == [] then []
    else if IsSep(s[0]) then "-" + Collapse(DropSeps(s[1..]))
    else [s[0]] + Collapse(s[1..])
  }

  /** `s.lstrip('-')` */
  function StripLeading(s: string): (r: string)
    ensures |r| <= |s| && r == s[|s| - |r|..]
    ensures r != [] ==> r[0] != '-'
  {
    if s != [] && s[0] == '-' then StripLeading(s[1..]) else s
  }

  /** `s.rstrip('-')` */
  function StripTrailing(s: string): (r: string)
    ensures |r| <= |s| && r == s[..|r|]
    ensures r != [] ==> r[|r| - 1] != '-'
  {
    if s != [] && s[|s| - 1] == '-' then StripTrailing(s[..|s| - 1]) else s
  }

  /** generate_slug(title) */
  function GenerateSlug(title: string): string {
    StripTrailing(StripLeading(Collapse(KeepSlugChars(Lower(title)))))
  }

  predicate NoDoubleDash(s: string) {
    forall i | 0 <= i < |s| - 1 :: !(s[i] == '-' && s[i + 1] == '-')
  }

  /** What a slug looks like: lower-case word characters and single '-' separators, none at either end. */
  predicate IsSlug(s: string) {
    && (forall i | 0 <= i < |s| :: (IsWordChar(s[i]) && !IsAsciiUpper(s[i])) || s[i] == '-')
    && NoDoubleDash(s)
    && (s != [] ==> s[0] != '-' && s[|s| - 1] != '-')
  }

  /** Collapse leaves no whitespace, only the kept non-separators and single dashes. */
  lemma {:induction false} CollapseShape(s: string)
    ensures forall i | 0 <= i < |Collapse(s)| :: Collapse(s)[i] == '-' || (Collapse(s)[i] in s && !IsSep(Collapse(s)[i]))
    ensures NoDoubleDash(Collapse(s))
    ensures Collapse(s) != [] && s != [] && !IsSep(s[0]) ==> Collapse(s)[0] == s[0]
    decreases |s|
  {
    if s != [] {
      if IsSep(s[0]) {
        var d := DropSeps(s[1..]);
        CollapseShape(d);
        var c := Collapse(d);
        assert Collapse(s) == "-" + c;
        forall i | 0 <= i < |c|
          ensures c[i] == '-' || (c[i] in s && !IsSep(c[i]))
        {
          if c[i] != '-' {
            assert c[i] in d;
            assert d == s[1..][|s[1..]| - |d|..];
          }
        }
        if c != [] {
          assert d != [] && !IsSep(d[0]);
        }
      } else {
        CollapseShape(s[1..]);
        var c := Collapse(s[1..]);
        assert Collapse(s) == [s[0]] + c;
        forall i | 0 <= i < |c|
          ensures c[i] == '-' || (c[i] in s && !IsSep(c[i]))
        {
          if c[i] != '-' {
            assert c[i] in s[1..];
          }
        }
      }
    }
  }

  /** No character of a lower-cased string is an upper-case letter. */
  lemma LowerHasNoUpper(s: string, c: char)
    requires c in Lower(s)
    ensures !IsAsciiUpper(c)
  {
    var i :| 0 <= i < |Lower(s)| && Lower(s)[i] == c;
  }

  /** Lower-case word characters and '-' with no "--": what Collapse leaves of a lower-cased title. */
  predicate DashedWords(c: string) {
    && (forall i | 0 <= i < |c| :: c[i] == '-' || (IsWordChar(c[i]) && !IsAsciiUpper(c[i])))
    && NoDoubleDash(c)
  }

  /** Any contiguous piece of such a string is again such a string. */
  lemma DashedWordsSlice(c: string, a: nat, b: nat)
    requires a <= b <= |c| && DashedWords(c)
    ensures DashedWords(c[a..b])
  {
    var r := c[a..b];
    assert forall i | 0 <= i < |r| :: r[i] == c[a + i];
  }

  /** Stripping dashes from both ends of a run of lower-case word characters and single dashes leaves a slug. */
  lemma StripsToSlug(c: string)
    requires DashedWords(c)
    ensures IsSlug(StripTrailing(StripLeading(c)))
  {
    var l := StripLeading(c);
    DashedWordsSlice(c, |c| - |l|, |c|);
    var r := StripTrailing(l);
    DashedWordsSlice(l, 0, |r|);
    if r != [] {
      assert r[0] == l[0];
    }
  }

  /**
   * generate_slug's output is a slug: lower case, only word characters and
   * '-', no "--", and no '-' at either end.
   */
  lemma GenerateSlugIsSlug(title: string)
    ensures IsSlug(GenerateSlug(title))
  {
    var k := KeepSlugChars(Lower(title));
    var c := Collapse(k);
    CollapseShape(k);
    forall i | 0 <= i < |c|
      ensures c[i] == '-' || (IsWordChar(c[i]) && !IsAsciiUpper(c[i]))
    {
      if c[i] != '-' {
        assert c[i] in k && !IsSep(c[i]);
        var j :| 0 <= j < |k| && k[j] == c[i];
        LowerHasNoUpper(title, c[i]);
      }
    }
    StripsToSlug(c);
  }

  lemma {:induction false} LowerOfSlug(s: string)
    requires IsSlug(s)
    ensures Lower(s) == s
  {
    assert forall i | 0 <= i < |s| :: Lower(s)[i] == s[i];
  }

  lemma {:induction false} KeepOfSlugChars(s: string)
    requires forall i | 0 <= i < |s| :: IsWordChar(s[i]) || s[i] == '-'
    ensures KeepSlugChars(s) == s
    decreases |s|
  {
    if s != [] {
      KeepOfSlugChars(s[1..]);
    }
  }

  lemma {:induction false} CollapseOfSlugChars(s: string)
    requires forall i | 0 <= i < |s| :: IsWordChar(s[i]) || s[i] == '-'
    requires NoDoubleDash(s)
    ensures Collapse(s) == s
    decreases |s|
  {
    if s != [] {
      CollapseOfSlugChars(s[1..]);
      if IsSep(s[0]) {
        if |s| > 1 {
          assert s[1] != '-' && !IsSpaceChar(s[1]);
        }
        assert DropSeps(s[1..]) == s[1..];
      }
    }
  }

  /** Slugging a slug changes nothing: generate_slug is idempotent. */
  lemma GenerateSlugIdempotent(title: string)
    ensures GenerateSlug(GenerateSlug(title)) == GenerateSlug(title)
  {
    var s := GenerateSlug(title);
    GenerateSlugIsSlug(title);
    LowerOfSlug(s);
    KeepOfSlugChars(s);
    CollapseOfSlugChars(s);
    assert StripLeading(s) == s;
    assert StripTrailing(s) == s;
  }

  // ---------------------------------------------------------------------------
  // Excerpts: re.sub('<[^<]+?>', '', content), then truncation to 150
  // ---------------------------------------------------------------------------

  /**
   * Where the tag that opens at s[0] closes: the first '>' at position 2 or
   * later with no '<' before it (the lazy `[^<]+?` needs one character, which
   * may itself be '>').
   */
  function CloseAt(s: string, j: nat): (r: Option<nat>)
    requires 1 <= j
    ensures r.Some? ==> j <= r.value < |s| && 2 <= r.value && s[r.value] == '>'
    ensures r.Some? ==> forall k | j <= k < r.value :: s[k] != '<'
    decreases |s| - j
  {
    if j >= |s| then None
    else if s[j] == '<' then None
    else if s[j] == '>' && j >= 2 then Some(j)
    else CloseAt(s, j + 1)
  }

  /** One left-to-right pass of the tag regex: each match is removed, everything else kept. */
  function StripTags(s: string): (r: string)
    ensures |r| <= |s|
    decreases |s|
  {
    if s == [] then []
    else if s[0] == '<' && CloseAt(s, 1).Some? then StripTags(s[CloseAt(s, 1).value + 1..])
    else [s[0]] + StripTags(s[1..])
  }

  /** Text without '<' has no tag to remove. */
  lemma {:induction false} StripTagsWithoutTags(s: string)
    requires '<' !in s
    ensures StripTags(s) == s
    decreases |s|
  {
    if s != [] {
      assert '<' !in s[1..];
      StripTagsWithoutTags(s[1..]);
    }
  }

  lemma {:induction false} CloseAtSkipsName(name: string, t: string, j: nat)
    requires 1 <= j <= |name| + 1
    requires |name| >= 1 && '<' !in name && '>' !in name
    ensures CloseAt("<" + name + ">" + t, j) == Some(|name| + 1)
    decreases |name| + 1 - j
  {
    var s := "<" + name + ">" + t;
    if j <= |name| {
      assert s[j] == name[j - 1];
      CloseAtSkipsName(name, t, j + 1);
    } else {
      assert s[j] == '>';
    }
  }

  /** A tag <name> with a non-empty name free of '<' and '>' is removed whole. */
  lemma StripTagsRemovesTag(name: string, t: string)
    requires |name| >= 1 && '<' !in name && '>' !in name
    ensures StripTags("<" + name + ">" + t) == StripTags(t)
  {
    var s := "<" + name + ">" + t;
    CloseAtSkipsName(name, t, 1);
    assert s[|name| + 2..] == t;
  }

  /** The pass is not repeated: a tag split by another tag leaves markup behind. */
  lemma StripTagsIsSinglePass()
    ensures StripTags("<a<b>>") == "<a>"
  {
    var s := "<a<b>>";
    assert CloseAt(s, 1) == None by {
      assert s[1] == 'a' && s[2] == '<';
    }
    assert s[1..] == "a<b>>";
    var u := s[2..];
    assert u == "<b>>";
    assert CloseAt(u, 1) == Some(2) by {
      assert u[1] == 'b' && u[2] == '>';
    }
    assert u[3..] == ">";
  }

  /** clean[:150] + "..." if len(clean) > 150 else clean */
  function Excerpt(clean: string): (r: string)
    ensures |r| <= 153
    ensures |clean| <= 150 ==> r == clean
    ensures |clean| > 150 ==> |r| == 153 && r[..150] == clean[..150] && r[150..] == "..."
  {
    if |clean| > 150 then clean[..150] + "..." else clean
  }

  /** The excerpt generated from content. */
  function ContentExcerpt(content: string): string {
    Excerpt(StripTags(content))
  }

  /** create_post: an excerpt is generated only when none (or an empty one) is given and there is content. */
  function CreateExcerpt(given: Option<string>, content: string): (r: Option<string>)
    ensures (given == None || given == Some("")) && content != "" ==> r == Some(ContentExcerpt(content))
    ensures !((given == None || given == Some("")) && content != "") ==> r == given
  {
    if (given.None? || given.value == "") && content != "" then Some(ContentExcerpt(content)) else given
  }

  /** Content without markup whose excerpt is itself. */
  lemma ShortPlainContentIsItsOwnExcerpt(content: string)
    requires '<' !in content && |content| <= 150
    ensures ContentExcerpt(content) == content
  {
    StripTagsWithoutTags(content);
  }

  // ---------------------------------------------------------------------------
  // Listing and statistics: the author filter
  // ---------------------------------------------------------------------------

  /**
   * The filter get_posts builds. The search clause (a case-insensitive
   * regular expression over title and content, or an exact tag) is kept as
   * its text only.
   */
  datatype PostFilter = PostFilter(
    authorId: Option<string>,
    status: Option<ContentStatus>,
    category: Option<string>,
    search: Option<string>)

  /** filter_dict of get_posts, key by key. */
  function PostsFilter(u: User, authorId: Option<string>, status: Option<ContentStatus>,
                       category: Option<string>, search: Option<string>): (f: PostFilter)
    ensures u.role == Author ==> f.authorId == Some(u.id)
    ensures u.role != Author ==> f.authorId == (if authorId.Some? && authorId.value != "" then authorId else None)
    ensures f.status == status
    ensures f.category == (if category.Some? && category.value != "" then category else None)
    ensures f.search == (if search.Some? && search.value != "" then search else None)
  {
    var owner := if u.role == Author then Some(u.id)
                 else if authorId.Some? && authorId.value != "" then authorId
                 else None;
    PostFilter(owner,
               status,
               if category.Some? && category.value != "" then category else None,
               if search.Some? && search.value != "" then search else None)
  }

  /** A post satisfies the author, status and category clauses of a filter. */
  predicate MatchesClauses(f: PostFilter, p: Post) {
    && (f.authorId.Some? ==> p.authorId == f.authorId.value)
    && (f.status.Some? ==> p.status == f.status.value)
    && (f.category.Some? ==> p.category == f.category)
  }

  /** A post as get_posts and get_post return it, with the "author" field they add. */
  datatype PostView = PostView(post: Post, author: Option<string>)

  /** The display name of a post's author: the user's name, or "Unknown Author". */
  function AuthorLabel(users: seq<User>, authorId: string): (name: string)
    ensures FindUser(users, authorId).Some? ==> name == FindUser(users, authorId).value.name
    ensures FindUser(users, authorId).None? ==> name == "Unknown Author"
  {
    match FindUser(users, authorId)
    case Some(a) => a.name
    case None => "Unknown Author"
  }

  /** The view of one listed post: an author name only when the post names an author. */
  function ListedView(users: seq<User>, p: Post): PostView {
    PostView(p, if p.authorId != "" then Some(AuthorLabel(users, p.authorId)) else None)
  }

  /** The loop of get_posts that adds author names, one post at a time. */
  method AddAuthorNames(users: seq<User>, posts: seq<Post>) returns (views: seq<PostView>)
    ensures |views| == |posts|
    ensures forall i | 0 <= i < |posts| :: views[i].post == posts[i]
    ensures forall i | 0 <= i < |posts| :: (views[i].author.Some? <==> posts[i].authorId != "")
    ensures forall i | 0 <= i < |posts| :: views[i] == ListedView(users, posts[i])
  {
    views := [];
    var i := 0;
    while i < |posts|
      invariant 0 <= i <= |posts|
      invariant |views| == i
      invariant forall k | 0 <= k < i :: views[k] == ListedView(users, posts[k])
    {
      var author: Option<string> := None;
      if posts[i].authorId != "" {
        author := Some(AuthorLabel(users, posts[i].authorId));
      }
      views := views + [PostView(posts[i], author)];
      i := i + 1;
    }
  }

  /**
   * get_posts: `found` is what the store returns for the filter (documents of
   * the collection matching its clauses, at most `limit` of them).
   */
  method GetPosts(u: User, users: seq<User>, posts: seq<Post>, authorId: Option<string>,
                  status: Option<ContentStatus>, category: Option<string>, search: Option<string>,
                  limit: int, found: seq<Post>)
    returns (r: Result<seq<PostView>, HttpError>)
    requires forall i | 0 <= i < |found| :: found[i] in posts
    requires forall i | 0 <= i < |found| :: MatchesClauses(PostsFilter(u, authorId, status, category, search), found[i])
    requires WithinLimit(|found|, limit)
    ensures r.Ok? <==> u.isActive
    ensures r.Err? ==> r.error == HttpError(BadRequest, "Inactive user")
    ensures r.Ok? ==> |r.value| == |found| && WithinLimit(|r.value|, limit)
    ensures r.Ok? ==> forall i | 0 <= i < |r.value| :: r.value[i] == ListedView(users, found[i])
    ensures r.Ok? && u.role == Author ==> forall i | 0 <= i < |r.value| :: r.value[i].post.authorId == u.id
  {
    if !u.isActive {
      return Err(HttpError(BadRequest, "Inactive user"));
    }
    var views := AddAuthorNames(users, found);
    r := Ok(views);
  }

  /** The statistics filter: an author counts only their own posts. */
  function StatsOwner(u: User): (owner: Option<string>)
    ensures owner.Some? <==> u.role == Author
    ensures owner.Some? ==> owner.value == u.id
  {
    if u.role == Author then Some(u.id) else None
  }

  predicate Owned(owner: Option<string>, p: Post) {
    owner.Some? ==> p.authorId == owner.value
  }

  function InScope(owner: Option<string>): Post -> bool {
    p => Owned(owner, p)
  }

  function InScopeWith(owner: Option<string>, st: ContentStatus): Post -> bool {
    p => Owned(owner, p) && p.status == st
  }

  datatype PostStats = PostStats(total: nat, published: nat, draft: nat, privateCount: nat)

  /** get_post_stats: the four counts over the caller's scope. */
  function GetPostStats(u: User, posts: seq<Post>): (st: PostStats)
    ensures st.total <= |posts|
    ensures st.published + st.draft + st.privateCount == st.total
  {
    var owner := StatsOwner(u);
    StatusCountsPartition(posts, owner);
    PostStats(Count(posts, InScope(owner)),
              Count(posts, InScopeWith(owner, Published)),
              Count(posts, InScopeWith(owner, Draft)),
              Count(posts, InScopeWith(owner, Private)))
  }

  /** Every post has exactly one of the three statuses, so the status counts add up to the total. */
  lemma {:induction false} StatusCountsPartition(posts: seq<Post>, owner: Option<string>)
    ensures Count(posts, InScopeWith(owner, Published)) + Count(posts, InScopeWith(owner, Draft))
            + Count(posts, InScopeWith(owner, Private)) == Count(posts, InScope(owner))
  {
    if posts != [] {
      StatusCountsPartition(posts[..|posts| - 1], owner);
    }
  }

  /** An author's statistics ignore every post by someone else. */
  lemma {:induction false} AuthorStatsIgnoreOthers(u: User, posts: seq<Post>, other: Post)
    requires u.role == Author && other.authorId != u.id
    ensures GetPostStats(u, posts + [other]) == GetPostStats(u, posts)
  {
    var s := posts + [other];
    assert s[..|s| - 1] == posts;
  }

  // ---------------------------------------------------------------------------
  // Single posts: visibility, creation, update
  // ---------------------------------------------------------------------------

  /** find_document("posts", {"_id": id}). */
  function FindPost(posts: seq<Post>, id: string): Option<Post> {
    FindById(posts, (p: Post) => p.id, id)
  }

  /** get_post: 404 for an unknown id; a private post is shown only to those who may edit it. */
  function GetPost(u: User, users: seq<User>, posts: seq<Post>, postId: string): (r: Result<PostView, HttpError>)
    ensures r.Ok? <==> u.isActive && FindPost(posts, postId).Some?
                       && (FindPost(posts, postId).value.status == Private ==> CanEditContent(u, FindPost(posts, postId).value.authorId))
    ensures r.Ok? ==> r.value.post.id == postId && r.value.post in posts
    ensures r.Ok? ==> r.value.author == Some(AuthorLabel(users, r.value.post.authorId))
    ensures u.isActive && FindPost(posts, postId).None? ==> r == Err(HttpError(NotFound, "Post not found"))
    ensures u.isActive && FindPost(posts, postId).Some? && r.Err? ==> r.error == HttpError(Forbidden, "Not authorized to view this post")
  {
    if !u.isActive then Err(HttpError(BadRequest, "Inactive user"))
    else match FindPost(posts, postId)
      case None => Err(HttpError(NotFound, "Post not found"))
      case Some(p) =>
        if p.status == Private && !CanEditContent(u, p.authorId) then
          Err(HttpError(Forbidden, "Not authorized to view this post"))
        else Ok(PostView(p, Some(AuthorLabel(users, p.authorId))))
  }

  /** An author cannot read another author's private post; anyone active can read a published one. */
  lemma PrivatePostVisibility(u: User, users: seq<User>, posts: seq<Post>, postId: string)
    requires u.isActive && FindPost(posts, postId).Some?
    ensures var p := FindPost(posts, postId).value;
            p.status == Private && u.role == Author && p.authorId != u.id ==> GetPost(u, users, posts, postId).Err?
    ensures FindPost(posts, postId).value.status != Private ==> GetPost(u, users, posts, postId).Ok?
  {
  }

  /**
   * create_post: the author is always the caller; the excerpt follows the
   * create rule; insert_document stamps both times with `now`.
   */
  function CreatePost(u: User, data: PostCreate, newId: string, now: int): (r: Result<PostView, HttpError>)
    ensures r.Ok? <==> u.isActive
    ensures r.Ok? ==> r.value.post.authorId == u.id && r.value.author == Some(u.name)
    ensures r.Ok? ==> r.value.post.excerpt == CreateExcerpt(data.excerpt, data.content)
    ensures r.Ok? ==> r.value.post.title == data.title && r.value.post.content == data.content
                      && r.value.post.status == data.status && r.value.post.tags == data.tags
    ensures r.Ok? ==> r.value.post.createdAt == now && r.value.post.updatedAt == now
  {
    if !u.isActive then Err(HttpError(BadRequest, "Inactive user"))
    else
      var p := Post(newId, data.title, data.content, CreateExcerpt(data.excerpt, data.content),
                    data.status, u.id, data.featuredImage, data.tags, data.category, now, now);
      Ok(PostView(p, Some(u.name)))
  }

  /** PostUpdate: every field optional. */
  datatype PostUpdate = PostUpdate(
    title: Option<string>,
    content: Option<string>,
    excerpt: Option<string>,
    status: Option<ContentStatus>,
    featuredImage: Option<string>,
    tags: Option<seq<string>>,
    category: Option<string>)

  /** update_dict is empty: every field of the update is None. */
  predicate EmptyUpdate(d: PostUpdate) {
    d.title.None? && d.content.None? && d.excerpt.None? && d.status.None?
    && d.featuredImage.None? && d.tags.None? && d.category.None?
  }

  /** The excerpt update_dict carries: the given one, else one generated from new content, else none. */
  function UpdateExcerpt(d: PostUpdate): (r: Option<string>)
    ensures d.excerpt.Some? ==> r == d.excerpt
    ensures d.excerpt.None? && d.content.Some? ==> r == Some(ContentExcerpt(d.content.value))
    ensures d.excerpt.None? && d.content.None? ==> r.None?
  {
    if d.excerpt.Some? then d.excerpt
    else if d.content.Some? then Some(ContentExcerpt(d.content.value))
    else None
  }

  function Override<T>(given: Option<T>, current: T): T {
    if given.Some? then given.value else current
  }

  /** update_document with the non-None fields: each given field replaces the stored one, and updated_at is stamped. */
  function ApplyPostUpdate(p: Post, d: PostUpdate, now: int): (q: Post)
    ensures q.id == p.id && q.authorId == p.authorId && q.createdAt == p.createdAt
    ensures q.title == Override(d.title, p.title) && q.content == Override(d.content, p.content)
    ensures q.status == Override(d.status, p.status) && q.tags == Override(d.tags, p.tags)
    ensures q.excerpt == (if UpdateExcerpt(d).Some? then UpdateExcerpt(d) else p.excerpt)
    ensures q.featuredImage == (if d.featuredImage.Some? then d.featuredImage else p.featuredImage)
    ensures q.category == (if d.category.Some? then d.category else p.category)
    ensures q.updatedAt == now
  {
    p.(title := Override(d.title, p.title),
       content := Override(d.content, p.content),
       excerpt := if UpdateExcerpt(d).Some? then UpdateExcerpt(d) else p.excerpt,
       status := Override(d.status, p.status),
       featuredImage := if d.featuredImage.Some? then d.featuredImage else p.featuredImage,
       tags := Override(d.tags, p.tags),
       category := if d.category.Some? then d.category else p.category,
       updatedAt := now)
  }

  /** Applying the same update twice is applying it once. */
  lemma ApplyPostUpdateIdempotent(p: Post, d: PostUpdate, now: int)
    ensures ApplyPostUpdate(ApplyPostUpdate(p, d, now), d, now) == ApplyPostUpdate(p, d, now)
  {
  }

  /** The result of update_post and whether it wrote to the store. */
  datatype UpdateOutcome = UpdateOutcome(view: PostView, written: bool)

  /**
   * update_post: 404 for an unknown id, 403 unless the caller may edit the
   * post; an empty update returns the stored post unchanged and unwritten.
   */
  function UpdatePost(u: User, users: seq<User>, posts: seq<Post>, postId: string, d: PostUpdate, now: int)
    : (r: Result<UpdateOutcome, HttpError>)
    ensures r.Ok? <==> u.isActive && FindPost(posts, postId).Some? && CanEditContent(u, FindPost(posts, postId).value.authorId)
    ensures u.isActive && FindPost(posts, postId).None? ==> r == Err(HttpError(NotFound, "Post not found"))
    ensures u.isActive && FindPost(posts, postId).Some? && r.Err? ==> r.error == HttpError(Forbidden, "Not authorized to edit this post")
    ensures r.Ok? ==> (r.value.written <==> !EmptyUpdate(d))
    ensures r.Ok? && EmptyUpdate(d) ==> r.value.view == PostView(FindPost(posts, postId).value, None)
    ensures r.Ok? && !EmptyUpdate(d) ==> r.value.view.post == ApplyPostUpdate(FindPost(posts, postId).value, d, now)
    ensures r.Ok? ==> r.value.view.post.authorId == FindPost(posts, postId).value.authorId
  {
    if !u.isActive then Err(HttpError(BadRequest, "Inactive user"))
    else match FindPost(posts, postId)
      case None => Err(HttpError(NotFound, "Post not found"))
      case Some(p) =>
        if !CanEditContent(u, p.authorId) then Err(HttpError(Forbidden, "Not authorized to edit this post"))
        else if EmptyUpdate(d) then Ok(UpdateOutcome(PostView(p, None), false))
        else
          var q := ApplyPostUpdate(p, d, now);
          Ok(UpdateOutcome(PostView(q, Some(AuthorLabel(users, q.authorId))), true))
  }

  // ---------------------------------------------------------------------------
  // Pages: slug choice and de-duplication
  // ---------------------------------------------------------------------------

  predicate SlugTaken(pages: seq<Page>, slug: string) {
    exists i | 0 <= i < |pages| :: pages[i].slug == slug
  }

  /** The slug before de-duplication: the one given, or one generated from the title when none (or "") is given. */
  function RequestedSlug(data: PageCreate): (slug: string)
    ensures data.slug.Some? && data.slug.value != "" ==> slug == data.slug.value
    ensures data.slug.None? || data.slug.value == "" ==> slug == GenerateSlug(data.title) && IsSlug(slug)
  {
    if data.slug.Some? && data.slug.value != "" then data.slug.value
    else GenerateSlugIsSlug(data.title); GenerateSlug(data.title)
  }

  /** A slug already in use gets "-<timestamp>" appended; a free one is kept. */
  function PageSlug(pages: seq<Page>, requested: string, timestamp: int): (slug: string)
    ensures !SlugTaken(pages, requested) ==> slug == requested
    ensures SlugTaken(pages, requested) ==> slug == requested + "-" + IntToString(timestamp)
  {
    if SlugTaken(pages, requested) then requested + "-" + IntToString(timestamp) else requested
  }

  /**
   * The de-duplicated slug is not looked up again: when "<slug>-<timestamp>"
   * is also in use, the new page shares it.
   */
  lemma TimestampSlugCanCollide()
    ensures var pages := [Page("1", "About", "", "about", Published, "u", "default", 0, 0),
                          Page("2", "About", "", "about-7", Published, "u", "default", 0, 0)];
            SlugTaken(pages, PageSlug(pages, "about", 7))
  {
    var pages := [Page("1", "About", "", "about", Published, "u", "default", 0, 0),
                  Page("2", "About", "", "about-7", Published, "u", "default", 0, 0)];
    assert pages[0].slug == "about";
    assert IntToString(7) == "7";
    assert pages[1].slug == "about-7";
  }

  /**
   * create_page (editors and admins): the author is the caller, the slug is
   * the requested one made unique against the stored pages as above.
   */
  function CreatePage(u: User, data: PageCreate, pages: seq<Page>, timestamp: int, newId: string, now: int)
    : (r: Result<Page, HttpError>)
    ensures r.Ok? <==> RoleChecker(Editor, u).Ok?
    ensures r.Err? ==> r == Err(RoleChecker(Editor, u).error)
    ensures r.Ok? ==> r.value.authorId == u.id && r.value.title == data.title && r.value.template == data.template
    ensures r.Ok? ==> r.value.slug == PageSlug(pages, RequestedSlug(data), timestamp)
    ensures r.Ok? && !SlugTaken(pages, RequestedSlug(data)) ==> !SlugTaken(pages, r.value.slug)
    ensures r.Ok? ==> r.value.createdAt == now && r.value.updatedAt == now
  {
    match RoleChecker(Editor, u)
    case Err(e) => Err(e)
    case Ok(_) =>
      Ok(Page(newId, data.title, data.content, PageSlug(pages, RequestedSlug(data), timestamp),
              data.status, u.id, data.template, now, now))
  }
}
