/**
 * The community forum (controllers/forumController.js): creating a post
 * with its defaults, toggling a like, replying, and deleting a post.
 */
module Forum {
  import opened Common
  import opened Seqs

  datatype Reply = Reply(author: ObjectId, text: string)

  datatype Post = Post(
    id: ObjectId,
    author: Option<ObjectId>,
    title: string,
    content: string,
    category: string,
    likes: seq<ObjectId>,
    isAnonymous: bool,
    tags: seq<string>,
    replies: seq<Reply>)

  /**
   * A request-body field whose JavaScript type the controller inspects:
   * absent, a boolean, an array of strings, or any other value.
   */
  datatype Field = Absent | Bool(b: bool) | Array(items: seq<string>) | Other

  datatype PostInput = PostInput(title: string, content: string, category: string, isAnonymous: Field, tags: Field)

  const DefaultCategory: string := "General Discussion"
  const MissingTitleOrContent: string := "title and content required"
  const MissingText: string := "text required"
  const PostNotFound: string := "Not found"
  const NotTheAuthor: string := "Not authorized"

  /**
   * The post `createPost` builds for `input`, posted by `author` (None when
   * the request is anonymous): rejected without a title or a content,
   * otherwise filled in with the defaults and no likes or replies.
   */
  function NewPost(id: ObjectId, author: Option<ObjectId>, input: PostInput): (r: Result<Post, Failure>)
    ensures r.Err? <==> input.title == "" || input.content == ""
    ensures r.Err? ==> r.error == BadRequest(MissingTitleOrContent)
    ensures r.Ok? ==> && r.value.id == id && r.value.author == author
                      && r.value.title == input.title && r.value.content == input.content
                      && r.value.likes == [] && r.value.replies == []
    ensures r.Ok? ==> r.value.category == if input.category == "" then DefaultCategory else input.category
    ensures r.Ok? ==> (!r.value.isAnonymous <==> input.isAnonymous == Bool(false))
    ensures r.Ok? ==> (r.value.tags != [] ==> input.tags.Array? && r.value.tags == input.tags.items)
    ensures r.Ok? ==> input.tags.Array? ==> r.value.tags == input.tags.items
  {
    if input.title == "" || input.content == "" then Err(BadRequest(MissingTitleOrContent))
    else
      Ok(Post(
        id, author, input.title, input.content,
        if input.category == "" then DefaultCategory else input.category,
        [],
        input.isAnonymous != Bool(false),
        if input.tags.Array? then input.tags.items else [],
        []))
  }

  /**
   * The likes after `user` toggles their like: the first occurrence of
   * `user` removed when there is one, otherwise `user` appended.
   */
  function Toggled(likes: seq<ObjectId>, user: ObjectId): (r: seq<ObjectId>)
    ensures user in likes ==> |r| == |likes| - 1 && multiset(r) == multiset(likes) - multiset{user}
    ensures user !in likes ==> r == likes + [user]
    ensures user in likes ==> IsSubsequence(r, likes)
    ensures user in likes ==>
      exists i :: 0 <= i < |likes| && likes[i] == user && user !in likes[..i] && r == likes[..i] + likes[i + 1..]
  {
    match FindIndex(likes, (u: ObjectId) => u == user)
    case Some(i) =>
      assert likes == likes[..i] + [likes[i]] + likes[i + 1..];
      RemoveAtIsSubsequence(likes, i);
      assert user !in likes[..i] by {
        forall j | 0 <= j < i ensures likes[..i][j] != user {
          assert likes[..i][j] == likes[j];
        }
      }
      likes[..i] + likes[i + 1..]
    case None => likes + [user]
  }

  /** Deleting one element keeps the others in order. */
  lemma {:induction false} RemoveAtIsSubsequence(s: seq<ObjectId>, i: nat)
    requires i < |s|
    ensures IsSubsequence(s[..i] + s[i + 1..], s)
  {
    if i == 0 {
      assert s[..i] + s[i + 1..] == s[1..];
      SuffixIsSubsequence(s[1..], s);
    } else {
      RemoveAtIsSubsequence(s[1..], i - 1);
      assert (s[..i] + s[i + 1..])[1..] == s[1..][..i - 1] + s[1..][i..];
    }
  }

  lemma {:induction false} SuffixIsSubsequence(a: seq<ObjectId>, s: seq<ObjectId>)
    requires |s| > 0 && a == s[1..]
    ensures IsSubsequence(a, s)
  {
    if a != [] && a[0] == s[0] {
      SuffixIsSubsequence(a[1..], s[1..]);
    } else if a != [] {
      SelfIsSubsequence(a);
    }
  }

  lemma {:induction false} SelfIsSubsequence(a: seq<ObjectId>)
    ensures IsSubsequence(a, a)
  {
    if a != [] {
      SelfIsSubsequence(a[1..]);
    }
  }

  /** Toggling flips membership and changes the like count by exactly one. */
  lemma {:induction false} ToggleFlips(likes: seq<ObjectId>, user: ObjectId)
    requires Distinct(likes)
    ensures Distinct(Toggled(likes, user))
    ensures user in Toggled(likes, user) <==> user !in likes
    ensures |Toggled(likes, user)| == if user in likes then |likes| - 1 else |likes| + 1
  {
    var r := Toggled(likes, user);
    if user in likes {
      var i := FindIndex(likes, (u: ObjectId) => u == user).value;
      assert r == likes[..i] + likes[i + 1..];
      forall a, b | 0 <= a < b < |r| ensures r[a] != r[b] {
        var a', b' := if a < i then a else a + 1, if b < i then b else b + 1;
        assert r[a] == likes[a'] && r[b] == likes[b'];
      }
      forall k | 0 <= k < |r| ensures r[k] != user {
        var k' := if k < i then k else k + 1;
        assert r[k] == likes[k'] && k' != i;
      }
    } else {
      forall a, b | 0 <= a < b < |r| ensures r[a] != r[b] {
        if b == |likes| {
          assert r[a] == likes[a];
        }
      }
    }
  }

  /** Starting from a list without `user`, two toggles give back the list. */
  lemma {:induction false} ToggleTwiceRestores(likes: seq<ObjectId>, user: ObjectId)
    requires user !in likes
    ensures Toggled(Toggled(likes, user), user) == likes
  {
    var once := likes + [user];
    assert Toggled(likes, user) == once;
    assert once[|likes|] == user;
    var i := FindIndex(once, (u: ObjectId) => u == user).value;
    assert i == |likes| by {
      assert once[i] == user;
      assert forall j :: 0 <= j < |likes| ==> once[j] == likes[j];
    }
    assert once[..i] + once[i + 1..] == likes;
  }

  /** Who may delete `post`: anyone when it has no author, else its author or an admin. */
  predicate MayDelete(post: Post, caller: Caller) {
    post.author.None? || post.author.value == caller.id || caller.role == Admin
  }

  /** `ForumPost.findById`: the position of the post with id `id`. */
  function FindPost(posts: seq<Post>, id: ObjectId): (r: Option<nat>)
    ensures r.Some? ==> r.value < |posts| && posts[r.value].id == id
    ensures r.None? ==> forall p :: p in posts ==> p.id != id
  {
    FindIndex(posts, (p: Post) => p.id == id)
  }

  /** The forum-post collection, with the counter that hands out fresh ids. */
  class ForumBoard {
    var posts: seq<Post>
    var nextId: ObjectId

    /** Every stored id was handed out before `nextId`. */
    ghost predicate Valid()
      reads this
    {
      forall i :: 0 <= i < |posts| ==> posts[i].id < nextId
    }

    constructor ()
      ensures Valid() && posts == []
    {
      posts := [];
      nextId := 0;
    }

    /** `createPost`: store the post `NewPost` builds, under a fresh id. */
    method CreatePost(author: Option<ObjectId>, input: PostInput) returns (r: Result<Post, Failure>)
      requires Valid()
      modifies this
      ensures Valid()
      ensures r == NewPost(old(nextId), author, input)
      ensures r.Ok? ==> posts == old(posts) + [r.value] && forall p :: p in old(posts) ==> p.id != r.value.id
      ensures r.Err? ==> posts == old(posts)
    {
      r := NewPost(nextId, author, input);
      if r.Ok? {
        posts := posts + [r.value];
        nextId := nextId + 1;
      }
    }

    /** `toggleLike`: 401 without a caller, 404 for an unknown post, else the toggle. */
    method ToggleLike(caller: Option<Caller>, id: ObjectId) returns (r: Result<Post, Failure>)
      requires Valid()
      modifies this
      ensures Valid() && nextId == old(nextId)
      ensures caller.None? ==> r == Err(NotAuthorized) && posts == old(posts)
      ensures caller.Some? && FindPost(old(posts), id).None? ==> r == Err(NotFound(PostNotFound)) && posts == old(posts)
      ensures caller.Some? && FindPost(old(posts), id).Some? ==>
        var i := FindPost(old(posts), id).value;
        && posts == old(posts)[i := old(posts)[i].(likes := Toggled(old(posts)[i].likes, caller.value.id))]
        && r == Ok(posts[i])
    {
      if caller.None? {
        return Err(NotAuthorized);
      }
      var found := FindPost(posts, id);
      if found.None? {
        return Err(NotFound(PostNotFound));
      }
      var i := found.value;
      var post := posts[i];
      posts := posts[i := post.(likes := Toggled(post.likes, caller.value.id))];
      r := Ok(posts[i]);
    }

    /** `reply`: 401 without a caller, 400 for empty text (before the lookup), 404 for an unknown post. */
    method AddReply(caller: Option<Caller>, id: ObjectId, text: string) returns (r: Result<Post, Failure>)
      requires Valid()
      modifies this
      ensures Valid() && nextId == old(nextId)
      ensures caller.None? ==> r == Err(NotAuthorized) && posts == old(posts)
      ensures caller.Some? && text == "" ==> r == Err(BadRequest(MissingText)) && posts == old(posts)
      ensures caller.Some? && text != "" && FindPost(old(posts), id).None? ==>
        r == Err(NotFound(PostNotFound)) && posts == old(posts)
      ensures caller.Some? && text != "" && FindPost(old(posts), id).Some? ==>
        var i := FindPost(old(posts), id).value;
        && posts == old(posts)[i := old(posts)[i].(replies := old(posts)[i].replies + [Reply(caller.value.id, text)])]
        && r == Ok(posts[i])
    {
      if caller.None? {
        return Err(NotAuthorized);
      }
      if text == "" {
        return Err(BadRequest(MissingText));
      }
      var found := FindPost(posts, id);
      if found.None? {
        return Err(NotFound(PostNotFound));
      }
      var i := found.value;
      var post := posts[i];
      posts := posts[i := post.(replies := post.replies + [Reply(caller.value.id, text)])];
      r := Ok(posts[i]);
    }

    /** `remove`: 401 without a caller, 404 for an unknown post, 403 unless `MayDelete`. */
    method Remove(caller: Option<Caller>, id: ObjectId) returns (r: Result<(), Failure>)
      requires Valid()
      modifies this
      ensures Valid() && nextId == old(nextId)
      ensures caller.None? ==> r == Err(NotAuthorized) && posts == old(posts)
      ensures caller.Some? && FindPost(old(posts), id).None? ==> r == Err(NotFound(PostNotFound)) && posts == old(posts)
      ensures caller.Some? && FindPost(old(posts), id).Some? ==>
        var i := FindPost(old(posts), id).value;
        if MayDelete(old(posts)[i], caller.value) then
          r == Ok(()) && posts == old(posts)[..i] + old(posts)[i + 1..]
        else
          r == Err(Forbidden(NotTheAuthor)) && posts == old(posts)
    {
      if caller.None? {
        return Err(NotAuthorized);
      }
      var found := FindPost(posts, id);
      if found.None? {
        return Err(NotFound(PostNotFound));
      }
      var i := found.value;
      if !MayDelete(posts[i], caller.value) {
        return Err(Forbidden(NotTheAuthor));
      }
      posts := posts[..i] + posts[i + 1..];
      r := Ok(());
    }
  }
}
