/** A user's post and its field validator (src/posts/model.go). */
module PostsModel {
  import opened Errors
  import opened Text

  datatype Post = Post(title: string, body: string, userId: int, createdAt: int)

  const TitleEmpty := "Title field can't be empty."
  const BodyEmpty := "Body field can't be empty."
  const CreatedAtNull := "CreatedAt field can't be a null value."
  const UserIdNull := "UserId field can't be a null value."

  /** `NewPost`: the author and the creation time (passed in); title and body empty. */
  function NewPost(userId: int, now: int): (p: Post)
    ensures p.userId == userId && p.createdAt == now && p.title == "" && p.body == ""
  {
    Post("", "", userId, now)
  }

  /**
   * `Post.checkFields`: nil exactly when title and body hold something other
   * than white space and both numbers are non-zero; otherwise the message of
   * the first failing check, in the order Title, Body, CreatedAt, UserId.
   */
  function CheckPost(p: Post): (r: Error)
    ensures r == Nil <==>
      !IsBlank(p.title) && !IsBlank(p.body) && p.createdAt != 0 && p.userId != 0
    ensures r == Fail(TitleEmpty) <==> IsBlank(p.title)
    ensures r == Fail(BodyEmpty) <==> !IsBlank(p.title) && IsBlank(p.body)
    ensures r == Fail(CreatedAtNull) <==>
      !IsBlank(p.title) && !IsBlank(p.body) && p.createdAt == 0
    ensures r == Fail(UserIdNull) <==>
      !IsBlank(p.title) && !IsBlank(p.body) && p.createdAt != 0 && p.userId == 0
  {
    if TrimSpace(p.title) == "" then Fail(TitleEmpty)
    else if TrimSpace(p.body) == "" then Fail(BodyEmpty)
    else if p.createdAt == 0 then Fail(CreatedAtNull)
    else if p.userId == 0 then Fail(UserIdNull)
    else Nil
  }

  /** A fresh post, before anything is decoded into it, is refused for its title. */
  lemma FreshPostLacksTitle(userId: int, now: int)
    ensures CheckPost(NewPost(userId, now)) == Fail(TitleEmpty)
  {
  }
}
