/** The embedded documents of a post other than its reactions: comments with
    their replies, and the attached course files. */
module Threads {
  import opened Responses
  import opened Reactions

  type CommentId = string

  datatype Reply = Reply(replyText: string, user: UserId)

  datatype Comment = Comment(id: CommentId, user: UserId, text: string, replies: seq<Reply>)

  /** An entry of `course_files`: the name given by the uploader, the durable
      URL returned by the upload, and the uploader. */
  datatype CourseFile = CourseFile(file_name: string, file: string, user: UserId)

  /** The position of the first comment with id `id`, which is the comment
      `comments.id(id)` hands back, or None when there is no such comment. */
  function FindComment(comments: seq<Comment>, id: CommentId): (r: Option<nat>)
    ensures r.None? <==> forall i :: 0 <= i < |comments| ==> comments[i].id != id
    ensures r.Some? ==> r.value < |comments| && comments[r.value].id == id
    ensures r.Some? ==> forall j :: 0 <= j < r.value ==> comments[j].id != id
  {
    if comments == [] then None
    else if comments[0].id == id then Some(0)
    else match FindComment(comments[1..], id)
      case None => None
      case Some(i) => Some(i + 1)
  }

  /** The comments after `reply` is pushed onto the replies of the comment
      with id `id`, or None when no comment has that id. */
  function AppendReply(comments: seq<Comment>, id: CommentId, reply: Reply): (r: Option<seq<Comment>>)
    ensures r.None? <==> forall c :: c in comments ==> c.id != id
    ensures r.Some? ==>
      && |r.value| == |comments|
      && var i := FindComment(comments, id).value;
      && r.value[i] == comments[i].(replies := comments[i].replies + [reply])
      && forall j :: 0 <= j < |comments| && j != i ==> r.value[j] == comments[j]
  {
    match FindComment(comments, id)
    case None => None
    case Some(i) => Some(comments[i := comments[i].(replies := comments[i].replies + [reply])])
  }

  /** The number of replies over all comments. */
  function ReplyCount(comments: seq<Comment>): nat
  {
    if comments == [] then 0 else |comments[0].replies| + ReplyCount(comments[1..])
  }

  lemma {:induction false} ReplyCountUpdate(comments: seq<Comment>, i: nat, c: Comment)
    requires i < |comments|
    ensures ReplyCount(comments[i := c]) == ReplyCount(comments) - |comments[i].replies| + |c.replies|
  {
    if i > 0 {
      assert comments[i := c][1..] == comments[1..][i - 1 := c];
      ReplyCountUpdate(comments[1..], i - 1, c);
    }
  }

  /** A successful reply adds exactly one reply to the thread as a whole, and
      it is the last reply of the comment it was sent to. */
  lemma AppendReplyAddsOne(comments: seq<Comment>, id: CommentId, reply: Reply)
    requires AppendReply(comments, id, reply).Some?
    ensures ReplyCount(AppendReply(comments, id, reply).value) == ReplyCount(comments) + 1
    ensures var i := FindComment(comments, id).value;
      AppendReply(comments, id, reply).value[i].replies[|comments[i].replies|] == reply
  {
    var i := FindComment(comments, id).value;
    ReplyCountUpdate(comments, i, comments[i].(replies := comments[i].replies + [reply]));
  }
}
