/** The community feed (src/app/pages/CommunitySpace.tsx): posts are
    prepended, comments appended to the post with a given id, and the feed is
    shown through a category and tag filter. Ids that the page takes from the
    clock are parameters. */
module CommunitySpace {
  import opened Wrappers
  import opened Text

  datatype Comment = Comment(id: int, author: string, content: string, time: string)

  datatype Reactions = Reactions(support: int, relate: int)

  datatype Post = Post(
    id: int,
    author: string,
    isAnonymous: bool,
    category: string,
    content: string,
    tags: seq<string>,
    reactions: Reactions,
    comments: seq<Comment>,
    time: string,
    color: string)

  const AllCategories: string := "All"

  /** The post written from the composer (NewPostFromForm states all of its
      fields): its author is "Anonymous" exactly when the anonymity switch is
      on, and it opens with no comments. */
  function NewPost(id: int, content: string, category: string, isAnonymous: bool): (p: Post)
    ensures p.author == "Anonymous" <==> isAnonymous
    ensures p.content == content && p.comments == []
  {
    assert "Guest_User"[0] != "Anonymous"[0];
    Post(id, if isAnonymous then "Anonymous" else "Guest_User", isAnonymous, category, content,
         ["New"], Reactions(0, 0), [], "Just now", "bg-white")
  }

  /** A new post carries the draft's text, category and anonymity; its author
      is "Anonymous" exactly when the anonymity switch is on and "Guest_User"
      otherwise; it starts with no reactions, no comments and the single tag
      "New". */
  lemma NewPostFromForm(id: int, content: string, category: string, isAnonymous: bool)
    ensures var p := NewPost(id, content, category, isAnonymous);
      && p.id == id && p.content == content && p.category == category && p.isAnonymous == isAnonymous
      && (p.author == "Anonymous" <==> isAnonymous)
      && (!isAnonymous ==> p.author == "Guest_User")
      && p.reactions == Reactions(0, 0) && p.comments == [] && p.tags == ["New"]
  {
  }

  /** The comment written from a post's comment box: posted as "You", with
      the typed text and the given id. */
  function NewComment(id: int, content: string): (c: Comment)
    ensures c.id == id && c.author == "You" && c.content == content
  {
    Comment(id, "You", content, "Just now")
  }

  /** The `posts.map(...)` of `handleAddComment`: every post whose id is
      `postId` gets `c` appended to its comments; every other post, and the
      order and number of posts, stay as they were. */
  function WithComment(posts: seq<Post>, postId: int, c: Comment): (r: seq<Post>)
    ensures |r| == |posts|
    ensures forall i :: 0 <= i < |r| && posts[i].id == postId ==>
      r[i] == posts[i].(comments := posts[i].comments + [c])
    ensures forall i :: 0 <= i < |r| && posts[i].id != postId ==> r[i] == posts[i]
  {
    if posts == [] then []
    else
      var head := if posts[0].id == postId then posts[0].(comments := posts[0].comments + [c]) else posts[0];
      [head] + WithComment(posts[1..], postId, c)
  }

  /** How many posts carry the id. */
  function CountId(posts: seq<Post>, postId: int): nat
  {
    if posts == [] then 0 else (if posts[0].id == postId then 1 else 0) + CountId(posts[1..], postId)
  }

  /** How many comments the feed holds in all. */
  function TotalComments(posts: seq<Post>): nat
  {
    if posts == [] then 0 else |posts[0].comments| + TotalComments(posts[1..])
  }

  /** Adding a comment adds one comment per post carrying the id: exactly one
      when ids are unique and the post exists, none when no post has the id. */
  lemma {:induction false} WithCommentCount(posts: seq<Post>, postId: int, c: Comment)
    ensures TotalComments(WithComment(posts, postId, c)) == TotalComments(posts) + CountId(posts, postId)
  {
    if posts != [] {
      WithCommentCount(posts[1..], postId, c);
      assert WithComment(posts, postId, c)[1..] == WithComment(posts[1..], postId, c);
    }
  }

  /** The tag filter is on only for a non-empty tag (`activeTag ? ... : true`). */
  predicate TagActive(tag: Option<string>)
  {
    tag.Some? && tag.value != ""
  }

  /** The predicate of `filteredPosts`: the "All" tab with no tag selected
      lets every post through; otherwise a post passes only if it is in the
      chosen category and, when a tag is selected, carries that tag. */
  function Matches(p: Post, category: string, tag: Option<string>): (b: bool)
    ensures category == AllCategories && !TagActive(tag) ==> b
    ensures b && category != AllCategories ==> p.category == category
    ensures b && TagActive(tag) ==> tag.value in p.tags
  {
    && (category == AllCategories || p.category == category)
    && (TagActive(tag) ==> tag.value in p.tags)
  }

  /** `filteredPosts`: the matching posts, in feed order. */
  function Filter(posts: seq<Post>, category: string, tag: Option<string>): (r: seq<Post>)
    ensures |r| <= |posts|
  {
    if posts == [] then []
    else (if Matches(posts[0], category, tag) then [posts[0]] else []) + Filter(posts[1..], category, tag)
  }

  /** A post is shown exactly when it is in the feed and matches. */
  lemma {:induction false} FilterMembers(posts: seq<Post>, category: string, tag: Option<string>)
    ensures forall p :: p in Filter(posts, category, tag) <==> p in posts && Matches(p, category, tag)
  {
    if posts != [] {
      FilterMembers(posts[1..], category, tag);
      assert posts == [posts[0]] + posts[1..];
    }
  }

  /** `r` is obtained from `s` by deleting elements, the rest kept in order. */
  ghost predicate IsSubsequence<T>(r: seq<T>, s: seq<T>)
    decreases |s|
  {
    if r == [] then true
    else if s == [] then false
    else if r[0] == s[0] then IsSubsequence(r[1..], s[1..])
    else IsSubsequence(r, s[1..])
  }

  /** The filter only deletes posts; it never reorders or repeats them. */
  lemma {:induction false} FilterIsSubsequence(posts: seq<Post>, category: string, tag: Option<string>)
    ensures IsSubsequence(Filter(posts, category, tag), posts)
  {
    if posts != [] {
      FilterIsSubsequence(posts[1..], category, tag);
      var rest := Filter(posts[1..], category, tag);
      if Matches(posts[0], category, tag) {
        assert Filter(posts, category, tag) == [posts[0]] + rest;
        assert ([posts[0]] + rest)[1..] == rest;
      } else {
        assert Filter(posts, category, tag) == rest;
        SubsequenceOfTail(rest, posts);
      }
    }
  }

  /** A subsequence of a sequence's tail is a subsequence of the sequence. */
  lemma {:induction false} SubsequenceOfTail<T>(r: seq<T>, s: seq<T>)
    requires s != [] && IsSubsequence(r, s[1..])
    ensures IsSubsequence(r, s)
    decreases |s|, 0
  {
    if r != [] && r[0] == s[0] {
      TailOfSubsequence(r, s[1..]);
    }
  }

  /** Dropping the first element of a subsequence keeps it a subsequence. */
  lemma {:induction false} TailOfSubsequence<T>(r: seq<T>, s: seq<T>)
    requires r != [] && IsSubsequence(r, s)
    ensures IsSubsequence(r[1..], s)
    decreases |s|, 1
  {
    if r[0] == s[0] {
      if r[1..] != [] {
        SubsequenceOfTail(r[1..], s);
      }
    } else {
      TailOfSubsequence(r, s[1..]);
      if r[1..] != [] {
        SubsequenceOfTail(r[1..], s);
      }
    }
  }

  /** Filtering two runs of posts gives the two filtered runs, in order. */
  lemma {:induction false} FilterOfAppend(a: seq<Post>, b: seq<Post>, category: string, tag: Option<string>)
    ensures Filter(a + b, category, tag) == Filter(a, category, tag) + Filter(b, category, tag)
  {
    if a != [] {
      assert (a + b)[1..] == a[1..] + b;
      FilterOfAppend(a[1..], b, category, tag);
    } else {
      assert a + b == b;
    }
  }

  /** Category "All" and no tag: the whole feed, unchanged. */
  lemma {:induction false} FilterAllKeepsFeed(posts: seq<Post>)
    ensures Filter(posts, AllCategories, None) == posts
  {
    if posts != [] {
      FilterAllKeepsFeed(posts[1..]);
    }
  }

  /** A prepended post shows at the top of the filtered feed exactly when it
      matches, and the rest of the filtered feed is unchanged. */
  lemma PrependedPostFiltered(p: Post, posts: seq<Post>, category: string, tag: Option<string>)
    ensures Filter([p] + posts, category, tag)
            == (if Matches(p, category, tag) then [p] else []) + Filter(posts, category, tag)
  {
    assert ([p] + posts)[1..] == posts;
  }

  /** The page's state. */
  class CommunityFeed {
    var posts: seq<Post>
    var activeCategory: string
    var activeTag: Option<string>
    var isModalOpen: bool
    var newPostContent: string
    var newPostCategory: string
    var isAnonymous: bool
    var expandedPostId: Option<int>
    var commentInput: string

    constructor(initialPosts: seq<Post>)
      ensures posts == initialPosts && activeCategory == AllCategories && activeTag == None
      ensures !isModalOpen && newPostContent == "" && newPostCategory == "Experience" && isAnonymous
      ensures expandedPostId == None && commentInput == ""
    {
      posts := initialPosts;
      activeCategory := AllCategories;
      activeTag := None;
      isModalOpen := false;
      newPostContent := "";
      newPostCategory := "Experience";
      isAnonymous := true;
      expandedPostId := None;
      commentInput := "";
    }

    /** The feed as shown. */
    function FilteredPosts(): (r: seq<Post>)
      reads this
      ensures forall p :: p in r <==> p in posts && Matches(p, activeCategory, activeTag)
    {
      FilterMembers(posts, activeCategory, activeTag);
      Filter(posts, activeCategory, activeTag)
    }

    /** A category chip. */
    method SelectCategory(category: string)
      modifies this`activeCategory
      ensures activeCategory == category
    {
      activeCategory := category;
    }

    /** A tag on a post. */
    method SelectTag(tag: string)
      modifies this`activeTag
      ensures activeTag == Some(tag)
    {
      activeTag := Some(tag);
    }

    /** The cross on the active-tag chip. */
    method ClearTag()
      modifies this`activeTag
      ensures activeTag == None
    {
      activeTag := None;
    }

    /** A post's comment button: opens its comments, or closes them when they
        are already open. */
    method ToggleComments(postId: int)
      modifies this`expandedPostId
      ensures expandedPostId == if old(expandedPostId) == Some(postId) then None else Some(postId)
    {
      expandedPostId := if expandedPostId == Some(postId) then None else Some(postId);
    }

    /** "Share Your Story", and the composer's backdrop and close button. */
    method SetComposerOpen(open: bool)
      modifies this`isModalOpen
      ensures isModalOpen == open
    {
      isModalOpen := open;
    }

    /** The composer's text area, category chips and anonymity switch. */
    method EditDraft(content: string, category: string, anonymous: bool)
      modifies this`newPostContent, this`newPostCategory, this`isAnonymous
      ensures newPostContent == content && newPostCategory == category && isAnonymous == anonymous
    {
      newPostContent := content;
      newPostCategory := category;
      isAnonymous := anonymous;
    }

    /** A post's comment box. */
    method SetCommentInput(text: string)
      modifies this`commentInput
      ensures commentInput == text
    {
      commentInput := text;
    }

    /** A comment box's send button is enabled only for non-blank input. */
    function CanComment(): (b: bool)
      reads this
      ensures b <==> !IsBlank(commentInput)
    {
      !TrimsToEmpty(commentInput)
    }

    /** `handlePostSubmit`. A blank draft changes nothing. Otherwise the post
        built from the draft goes on top of the feed, the older posts follow in
        their order, the composer closes and the draft is cleared. The draft's
        category and anonymity stay selected. */
    method SubmitPost(id: int) returns (posted: bool)
      modifies this`posts, this`isModalOpen, this`newPostContent
      ensures posted <==> !IsBlank(old(newPostContent))
      ensures !posted ==> posts == old(posts) && isModalOpen == old(isModalOpen)
                          && newPostContent == old(newPostContent)
      ensures posted ==>
        && posts == [NewPost(id, old(newPostContent), newPostCategory, isAnonymous)] + old(posts)
        && !isModalOpen && newPostContent == ""
    {
      var blank := CheckBlank(newPostContent);
      posted := !blank;
      if posted {
        posts := [NewPost(id, newPostContent, newPostCategory, isAnonymous)] + posts;
        isModalOpen := false;
        newPostContent := "";
      }
    }

    /** `handleAddComment`. Blank input changes nothing. Otherwise the comment
        is appended to the post(s) with that id, every other post is left as it
        was, and the comment box is cleared. */
    method AddComment(postId: int, commentId: int) returns (added: bool)
      modifies this`posts, this`commentInput
      ensures added <==> !IsBlank(old(commentInput))
      ensures !added ==> posts == old(posts) && commentInput == old(commentInput)
      ensures added ==>
        && posts == WithComment(old(posts), postId, NewComment(commentId, old(commentInput)))
        && commentInput == ""
    {
      var blank := CheckBlank(commentInput);
      if blank {
        return false;
      }
      posts := WithComment(posts, postId, NewComment(commentId, commentInput));
      commentInput := "";
      added := true;
    }
  }
}
