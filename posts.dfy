/** The post aggregate and the handlers that change it: like, dislike, reply,
    file attachment and creation. A handler receives the post that the lookup
    by id returned (`null` when there is none) and the id of the authenticated
    user; uploads are represented by their outcome. */
module Posts {
  import opened Responses
  import opened Reactions
  import opened Threads

  /** What the object-storage upload of a request's file gave. */
  datatype Upload = NoFile | Uploaded(url: string) | UploadFailed(message: string)

  /** The scalar fields of a post. */
  datatype PostDetails = PostDetails(
    author: UserId,
    name: string,
    course_title: string,
    course_description: string,
    course_code: string,
    image: string)

  /** The image a post gets from its schema default when none is uploaded. */
  const DefaultImage: string :=
    "https://img.freepik.com/free-vector/vector-background-seamless-retro-camera-tripod_2065-591.jpg?w=740&t=st=1700038939~exp=1700039539~hmac=2bae01dda7df3a48b21cf621060870cc69e205dae4e4d081a81f27ade6f138bf"

  class Post {
    var author: UserId
    var name: string
    var course_title: string
    var course_description: string
    var course_code: string
    var image: string
    var course_files: seq<CourseFile>
    var likes: seq<UserId>
    var dislikes: seq<UserId>
    var likesCount: int
    var dislikesCount: int
    var comments: seq<Comment>

    function Details(): PostDetails
      reads this
    {
      PostDetails(author, name, course_title, course_description, course_code, image)
    }

    /** The reaction fields of this post as one value. */
    function Reaction(): ReactionState
      reads this
    {
      ReactionState(likes, dislikes, likesCount, dislikesCount)
    }

    /** A newly created post: no reactions, comments or files yet. */
    constructor (d: PostDetails)
      ensures Details() == d
      ensures Reaction() == ReactionState([], [], 0, 0) && Valid(Reaction())
      ensures comments == [] && course_files == []
    {
      author, name, course_title := d.author, d.name, d.course_title;
      course_description, course_code, image := d.course_description, d.course_code, d.image;
      course_files, comments := [], [];
      likes, dislikes, likesCount, dislikesCount := [], [], 0, 0;
    }

    /** The toggle of `likePost` on a loaded post. */
    method ToggleLike(u: UserId)
      modifies this
      ensures Reaction() == Reactions.Like(old(Reaction()), u)
      ensures Valid(old(Reaction())) ==> Valid(Reaction())
      ensures Details() == old(Details()) && comments == old(comments) && course_files == old(course_files)
    {
      ghost var before := Reaction();
      var alreadyLiked := u in likes;
      var alreadyDisliked := u in dislikes;
      if alreadyLiked {
        likes := Without(likes, u);
        likesCount := likesCount - 1;
      } else {
        likes := likes + [u];
        likesCount := likesCount + 1;
      }
      if alreadyDisliked {
        dislikes := Without(dislikes, u);
        dislikesCount := dislikesCount - 1;
      }
      if Valid(before) {
        LikePreservesValid(before, u);
      }
    }

    /** The toggle of `dislikePost` on a loaded post. */
    method ToggleDislike(u: UserId)
      modifies this
      ensures Reaction() == Reactions.Dislike(old(Reaction()), u)
      ensures Valid(old(Reaction())) ==> Valid(Reaction())
      ensures Details() == old(Details()) && comments == old(comments) && course_files == old(course_files)
    {
      ghost var before := Reaction();
      var alreadyDisliked := u in dislikes;
      var alreadyLiked := u in likes;
      if alreadyDisliked {
        dislikes := Without(dislikes, u);
        dislikesCount := dislikesCount - 1;
      } else {
        dislikes := dislikes + [u];
        dislikesCount := dislikesCount + 1;
      }
      if alreadyLiked {
        likes := Without(likes, u);
        likesCount := likesCount - 1;
      }
      if Valid(before) {
        DislikePreservesValid(before, u);
      }
    }

    /** Push `reply` onto the replies of the comment with id `commentId`, if
        there is one. */
    method PushReply(commentId: CommentId, reply: Reply) returns (found: bool)
      modifies this
      ensures found <==> FindComment(old(comments), commentId).Some?
      ensures comments == if found then AppendReply(old(comments), commentId, reply).value else old(comments)
      ensures Details() == old(Details()) && Reaction() == old(Reaction()) && course_files == old(course_files)
    {
      var i := FindComment(comments, commentId);
      found := i.Some?;
      if found {
        var c := comments[i.value];
        comments := comments[i.value := c.(replies := c.replies + [reply])];
      }
    }

    /** Push an entry onto `course_files`. */
    method PushCourseFile(f: CourseFile)
      modifies this
      ensures course_files == old(course_files) + [f]
      ensures Details() == old(Details()) && Reaction() == old(Reaction()) && comments == old(comments)
    {
      course_files := course_files + [f];
    }
  }

  // -----------------------------------------------------------------------
  // Handlers

  /** likePost. */
  method LikePost(post: Post?, u: UserId) returns (r: Outcome)
    modifies post
    ensures post == null ==> r == Failed(HttpError(404, NotFound, "Post not found"))
    ensures post != null ==>
      && r == Done(200)
      && post.Reaction() == Reactions.Like(old(post.Reaction()), u)
      && post.Details() == old(post.Details())
      && post.comments == old(post.comments)
      && post.course_files == old(post.course_files)
  {
    if post == null {
      return Failed(HttpError(404, NotFound, "Post not found"));
    }
    post.ToggleLike(u);
    r := Done(200);
  }

  /** dislikePost. */
  method DislikePost(post: Post?, u: UserId) returns (r: Outcome)
    modifies post
    ensures post == null ==> r == Failed(HttpError(404, NotFound, "Post not found"))
    ensures post != null ==>
      && r == Done(200)
      && post.Reaction() == Reactions.Dislike(old(post.Reaction()), u)
      && post.Details() == old(post.Details())
      && post.comments == old(post.comments)
      && post.course_files == old(post.course_files)
  {
    if post == null {
      return Failed(HttpError(404, NotFound, "Post not found"));
    }
    post.ToggleDislike(u);
    r := Done(200);
  }

  /** addReply. The two "not found" errors are thrown inside a try block whose
      catch answers 500, so that is the status the client sees. */
  method AddReply(post: Post?, commentId: CommentId, replyText: string, u: UserId) returns (r: Outcome)
    modifies post
    ensures replyText == "" ==> r == Failed(HttpError(400, ValidationError, "Please enter a reply"))
    ensures replyText != "" && post == null ==> r == Failed(HttpError(500, NotFound, "Post not found"))
    ensures replyText != "" && post != null && FindComment(old(post.comments), commentId).None? ==>
      r == Failed(HttpError(500, NotFound, "Comment not found"))
    ensures r.Done? <==> replyText != "" && post != null && FindComment(old(post.comments), commentId).Some?
    ensures r.Done? ==>
      r.status == 201 && post.comments == AppendReply(old(post.comments), commentId, Reply(replyText, u)).value
    ensures post != null ==>
      && post.Details() == old(post.Details())
      && post.Reaction() == old(post.Reaction())
      && post.course_files == old(post.course_files)
      && (r.Failed? ==> post.comments == old(post.comments))
  {
    if replyText == "" {
      return Failed(HttpError(400, ValidationError, "Please enter a reply"));
    }
    if post == null {
      return Failed(HttpError(500, NotFound, "Post not found"));
    }
    var found := post.PushReply(commentId, Reply(replyText, u));
    if !found {
      return Failed(HttpError(500, NotFound, "Comment not found"));
    }
    r := Done(201);
  }

  /** addComment as intended: validate, upload, look the post up, then append
      `{file_name, file: url, user}` to `course_files`. The upload happens
      before the lookup, so a failed upload is reported even for a missing
      post. Errors inside the try block are answered with 500. */
  method AddComment(post: Post?, file_name: string, file: Upload, u: UserId) returns (r: Outcome)
    modifies post
    ensures file_name == "" ==> r == Failed(HttpError(400, ValidationError, "Please enter a comment"))
    ensures file_name != "" && file.NoFile? ==> r == Failed(HttpError(400, ValidationError, "Please a file"))
    ensures file_name != "" && file.UploadFailed? ==> r == Failed(HttpError(500, ServiceFailed, file.message))
    ensures file_name != "" && file.Uploaded? && post == null ==> r == Failed(HttpError(500, NotFound, "Post not found"))
    ensures r.Done? <==> file_name != "" && file.Uploaded? && post != null
    ensures r.Done? ==>
      r.status == 201 && post.course_files == old(post.course_files) + [CourseFile(file_name, file.url, u)]
    ensures post != null ==>
      && post.Details() == old(post.Details())
      && post.Reaction() == old(post.Reaction())
      && post.comments == old(post.comments)
      && (r.Failed? ==> post.course_files == old(post.course_files))
  {
    if file_name == "" {
      return Failed(HttpError(400, ValidationError, "Please enter a comment"));
    }
    if file.NoFile? {
      return Failed(HttpError(400, ValidationError, "Please a file"));
    }
    if file.UploadFailed? {
      return Failed(HttpError(500, ServiceFailed, file.message));
    }
    if post == null {
      return Failed(HttpError(500, NotFound, "Post not found"));
    }
    post.PushCourseFile(CourseFile(file_name, file.url, u));
    r := Done(201);
  }

  /** addComment as written: once the two checks pass, building the upload
      options reads the undeclared variable `name`, the ReferenceError is
      caught and answered with 500, and no request ever reaches the append. */
  function AddCommentAsWritten(file_name: string, file: Upload): (r: Outcome)
    ensures r.Failed?
    ensures file_name == "" ==> r == Failed(HttpError(400, ValidationError, "Please enter a comment"))
    ensures file_name != "" && file.NoFile? ==> r == Failed(HttpError(400, ValidationError, "Please a file"))
    ensures file_name != "" && !file.NoFile? ==> r.error.status == 500 && r.error.kind == Unhandled
  {
    if file_name == "" then Failed(HttpError(400, ValidationError, "Please enter a comment"))
    else if file.NoFile? then Failed(HttpError(400, ValidationError, "Please a file"))
    else Failed(HttpError(500, Unhandled, "name is not defined"))
  }

  // -----------------------------------------------------------------------
  // createPost

  /** The number of line feeds in `s`. */
  function Newlines(s: string): nat
  {
    multiset(s)['\n']
  }

  /** `s` with every line feed replaced by the markup line break `<br/>`. */
  function ExpandNewlines(s: string): (r: string)
    ensures '\n' !in r
    ensures |r| == |s| + 4 * Newlines(s)
  {
    if s == [] then []
    else
      assert s == [s[0]] + s[1..];
      (if s[0] == '\n' then "<br/>" else [s[0]]) + ExpandNewlines(s[1..])
  }

  /** A text without line feeds is left as it is, so expanding twice is
      expanding once. */
  lemma {:induction false} ExpandNewlinesIdentity(s: string)
    requires '\n' !in s
    ensures ExpandNewlines(s) == s
  {
    if s != [] {
      ExpandNewlinesIdentity(s[1..]);
    }
  }

  lemma ExpandNewlinesIdempotent(s: string)
    ensures ExpandNewlines(ExpandNewlines(s)) == ExpandNewlines(s)
  {
    ExpandNewlinesIdentity(ExpandNewlines(s));
  }

  /** Each line feed becomes `<br/>`: the text up to the first line feed is
      kept, the line feed turns into the markup break, and the rest is
      rewritten in the same way. */
  lemma ExpandNewlinesLineFeed(a: string, b: string)
    requires '\n' !in a
    ensures ExpandNewlines(a + "\n" + b) == a + "<br/>" + ExpandNewlines(b)
  {
    ExpandNewlinesAppend(a + "\n", b);
    ExpandNewlinesAppend(a, "\n");
    ExpandNewlinesIdentity(a);
    assert ExpandNewlines("\n") == "<br/>" by {
      assert "\n"[1..] == [];
    }
  }

  /** The rewrite works line by line: it distributes over concatenation. */
  lemma {:induction false} ExpandNewlinesAppend(a: string, b: string)
    ensures ExpandNewlines(a + b) == ExpandNewlines(a) + ExpandNewlines(b)
  {
    if a == [] {
      assert a + b == b;
    } else {
      assert (a + b)[0] == a[0];
      assert (a + b)[1..] == a[1..] + b;
      ExpandNewlinesAppend(a[1..], b);
    }
  }

  /** The checks and field values of createPost. Everything runs inside a try
      block whose catch answers 500, the failed field check included. A
      missing author record makes `user.fullname` throw. */
  function NewPost(author: UserId, authorName: Option<string>, course_title: string,
                   course_description: string, course_code: string, image: Upload): (r: Result<PostDetails>)
    ensures r.Ok? <==>
      course_title != "" && course_description != "" && course_code != ""
      && !image.UploadFailed? && authorName.Some?
    ensures course_title == "" || course_description == "" || course_code == "" ==>
      r == Err(HttpError(500, ValidationError, "Please fill in all fields"))
    ensures r.Ok? ==>
      && r.value.author == author
      && r.value.name == authorName.value
      && r.value.course_title == course_title
      && r.value.course_code == course_code
      && '\n' !in r.value.course_description
      && r.value.course_description == ExpandNewlines(course_description)
      && r.value.image == (if image.Uploaded? then image.url else DefaultImage)
  {
    if course_title == "" || course_description == "" || course_code == "" then
      Err(HttpError(500, ValidationError, "Please fill in all fields"))
    else if image.UploadFailed? then
      Err(HttpError(500, ServiceFailed, image.message))
    else if authorName.None? then
      Err(HttpError(500, Unhandled, "Cannot read properties of null (reading 'fullname')"))
    else
      Ok(PostDetails(author, authorName.value, course_title, ExpandNewlines(course_description), course_code,
                     if image.Uploaded? then image.url else DefaultImage))
  }

  /** createPost: check the fields and create the post. */
  method CreatePost(author: UserId, authorName: Option<string>, course_title: string,
                    course_description: string, course_code: string, image: Upload)
    returns (r: Outcome, post: Post?)
    ensures r.Done? <==> NewPost(author, authorName, course_title, course_description, course_code, image).Ok?
    ensures r.Failed? ==>
      post == null && r.error == NewPost(author, authorName, course_title, course_description, course_code, image).error
    ensures r.Done? ==>
      && r.status == 201
      && post != null && fresh(post)
      && post.Details() == NewPost(author, authorName, course_title, course_description, course_code, image).value
      && post.Reaction() == ReactionState([], [], 0, 0)
      && post.comments == [] && post.course_files == []
  {
    var d := NewPost(author, authorName, course_title, course_description, course_code, image);
    if d.Err? {
      return Failed(d.error), null;
    }
    post := new Post(d.value);
    r := Done(201);
  }
}
