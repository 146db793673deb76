/**
 * Concrete records run through the dispatch decision: a delivered comment notification
 * and a record with an empty token.
 */
module Scenarios {
  import opened Wrappers
  import opened JsValues
  import opened Firestore
  import opened SendPushNotification

  /** A `comment` payload with a topic id is forwarded with the two other keys set to `''`. */
  lemma CommentPayloadExample(rec: Record)
    requires Get(rec, "data") == Obj(map["type" := Str("comment"), "topicId" := Str("t1")])
    ensures DataPayload(rec) == map[
      "type" := Str("comment"), "topicId" := Str("t1"),
      "commentId" := Str(""), "notificationId" := Str("")]
  {
    var payload := Get(rec, "data");
    assert Member(payload, "commentId") == Undefined;
    assert Member(payload, "notificationId") == Undefined;
  }

  /** The message built for a record with that title, body and payload, sent to `tok123`. */
  lemma CommentMessage(rec: Record)
    requires Get(rec, "title") == Str("New comment") && Get(rec, "body") == Str("Hi")
    requires Get(rec, "data") == Obj(map["type" := Str("comment"), "topicId" := Str("t1")])
    ensures BuildMessage(rec, "tok123") == Message(
      Notification(Str("New comment"), Str("Hi")),
      map["type" := Str("comment"), "topicId" := Str("t1"), "commentId" := Str(""), "notificationId" := Str("")],
      "tok123",
      HighPriorityAndroid,
      DefaultApns)
  {
    CommentPayloadExample(rec);
  }

  /** An unsent record with token `tok123` and a gateway answering `abc` gets the success update. */
  lemma CommentDispatch(rec: Record)
    requires "sent" !in rec
    requires Get(rec, "fcmToken") == Str("tok123")
    ensures Dispatch(Some(rec), Delivered("abc"), Committed)
         == Outcome(Some(BuildMessage(rec, "tok123")), [SuccessUpdate("abc")])
  {
    assert IsValidToken(Str("tok123")) by {
      assert !IsJsWhitespace("tok123"[0]);
      ValidTokenIff(Str("tok123"));
    }
  }

  /**
   * A record holding token `tok123`, a title, a body and a `comment` payload, with a
   * gateway that answers `abc`: the message carries the title, the body, the untouched
   * token and the payload with the two missing keys as empty strings, and the success
   * update is written.
   */
  lemma DeliveredCommentExample(rec: Record)
    requires "sent" !in rec
    requires Get(rec, "fcmToken") == Str("tok123")
    requires Get(rec, "title") == Str("New comment") && Get(rec, "body") == Str("Hi")
    requires Get(rec, "data") == Obj(map["type" := Str("comment"), "topicId" := Str("t1")])
    ensures Dispatch(Some(rec), Delivered("abc"), Committed) == Outcome(
      Some(Message(
        Notification(Str("New comment"), Str("Hi")),
        map["type" := Str("comment"), "topicId" := Str("t1"), "commentId" := Str(""), "notificationId" := Str("")],
        "tok123",
        HighPriorityAndroid,
        DefaultApns)),
      [SuccessUpdate("abc")])
  {
    CommentDispatch(rec);
    CommentMessage(rec);
  }

  /** An empty token is marked failed and nothing is sent. */
  lemma EmptyTokenExample(reply: SendReply, ack: WriteReply)
    ensures Dispatch(Some(map["fcmToken" := Str("")]), reply, ack) == Outcome(None, [InvalidTokenUpdate()])
  {
  }
}
