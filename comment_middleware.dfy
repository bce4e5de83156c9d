/**
 * `isCommentCreator`: the middleware that lets a request on a comment
 * through only for the comment's author. The comment lookup is an input:
 * its outcome is given.
 */
module CommentMiddleware {
  import opened JsValues
  import opened Http

  const NotOwner := "Not owner this comment"
  const NotFound := "Comment not found"
  const UnexpectedError := "Unexpected error occurred"

  /** `sessionUserId` is `req.session.userId`; `comment` is the outcome of
      the lookup `getCommentById` keyed by the route parameters: the stored
      document when found. */
  function IsCommentCreator(sessionUserId: JsValue, comment: Completion<Option<seq<Prop>>>): Step
  {
    match comment
    case Throw(_) => Respond(ErrorReply(500, Str(UnexpectedError)))
    case Normal(None) => Respond(MessageReply(404, NotFound))
    case Normal(Some(source)) =>
      if StrictEquals(Get(source, "user_id"), sessionUserId) then Next
      else Respond(MessageReply(403, NotOwner))
  }

  /** Exactly one of four things happens: `next` for the author, 403 for
      anyone else, 404 for a missing comment, 500 for a failed lookup. */
  lemma CommentDecision(sessionUserId: JsValue, comment: Completion<Option<seq<Prop>>>)
    ensures var s := IsCommentCreator(sessionUserId, comment);
            && (s.Next? <==>
                  comment.Normal? && comment.value.Some?
                  && StrictEquals(Get(comment.value.value, "user_id"), sessionUserId))
            && (s.Respond? ==> s.reply.status in {403, 404, 500})
            && (s.Respond? && s.reply.status == 403 <==>
                  comment.Normal? && comment.value.Some?
                  && !StrictEquals(Get(comment.value.value, "user_id"), sessionUserId))
            && (s.Respond? && s.reply.status == 404 <==> comment == Normal(None))
            && (s.Respond? && s.reply.status == 500 <==> comment.Throw?)
            && (s.Respond? && s.reply.status == 403 ==> s.reply == MessageReply(403, NotOwner))
            && (s.Respond? && s.reply.status == 404 ==> s.reply == MessageReply(404, NotFound))
            && (s.Respond? && s.reply.status == 500 ==> s.reply == ErrorReply(500, Str(UnexpectedError)))
  {
  }

  /** Strict equality: a numeric `user_id` never matches a session id held
      as a string, and objects never match. */
  lemma OwnerNeedsSameType(sessionUserId: JsValue, source: seq<Prop>)
    requires IsCommentCreator(sessionUserId, Normal(Some(source))).Next?
    ensures Get(source, "user_id") == sessionUserId
    ensures !sessionUserId.Obj? && !sessionUserId.Arr?
    ensures sessionUserId != Num("NaN")
  {
  }

  /** A request without a signed-in user passes only for a comment that has
      no `user_id` at all. */
  lemma NoSessionPassesOnlyOwnerless(source: seq<Prop>)
    ensures IsCommentCreator(Undefined, Normal(Some(source))).Next? <==> Get(source, "user_id").Undefined?
  {
  }
}
