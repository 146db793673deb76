/**
 * The `sendPushNotification` handler: runs once for every document created under
 * `push_notifications/{notificationId}`, checks the record, builds a Firebase Cloud
 * Messaging (FCM) message, sends it, and records the outcome on the document.
 *
 * The send itself is not modelled: its answer is an input (`SendReply`), and so is
 * the store's answer to the success write, the one write that sits inside the `try`.
 */
module SendPushNotification {
  import opened Wrappers
  import opened JsValues
  import opened Firestore

  /** Title used when the record carries none. */
  const DefaultTitle: string := "알림"
  /** The `error` recorded when the record has no usable FCM token. */
  const InvalidTokenError: string := "FCM token is missing or invalid"
  /** The only keys forwarded from the record's `data` object. */
  const PayloadKeys: set<string> := {"type", "topicId", "commentId", "notificationId"}

  /** The creation event: `event.data`, the snapshot's fields when there is a snapshot. */
  datatype Event = Event(snapshot: Option<Record>)

  /** What `admin.messaging().send(message)` does: resolves with a message id, or throws. */
  datatype SendReply = Delivered(messageId: string) | Failed(error: Thrown)

  datatype Notification = Notification(title: JsValue, body: JsValue)
  datatype AndroidConfig = AndroidConfig(priority: string, channelId: string, sound: string)
  datatype ApnsConfig = ApnsConfig(sound: string, badge: int)

  /** The FCM message object built by the handler. */
  datatype Message = Message(
    notification: Notification,
    data: map<string, JsValue>,
    token: string,
    android: AndroidConfig,
    apns: ApnsConfig)

  /** Platform hints, the same for every message. */
  const HighPriorityAndroid: AndroidConfig := AndroidConfig("high", "high_importance_channel", "default")
  const DefaultApns: ApnsConfig := ApnsConfig("default", 1)

  /** Everything one invocation does: the message it sends, if any, and the updates it commits. */
  datatype Outcome = Outcome(sent: Option<Message>, writes: seq<Record>)

  const NoEffect: Outcome := Outcome(None, [])

  /**
   * `!fcmToken || typeof fcmToken !== 'string' || fcmToken.trim() === ''`, negated: only a
   * non-empty string can pass, and `ValidTokenIff` says exactly which ones do.
   */
  predicate IsValidToken(v: JsValue)
    ensures IsValidToken(v) ==> v.Str? && v.s != ""
  {
    Truthy(v) && v.Str? && Trim(v.s) != ""
  }

  /** A token is usable exactly when it is a string with a character that is not whitespace. */
  lemma ValidTokenIff(v: JsValue)
    ensures IsValidToken(v) <==> v.Str? && exists i :: 0 <= i < |v.s| && !IsJsWhitespace(v.s[i])
  {
    if v.Str? {
      TrimEmptyIff(v.s);
    }
  }

  /** The `data` payload: the four declared keys, each copied when truthy and `''` otherwise. */
  function DataPayload(rec: Record): (p: map<string, JsValue>)
    ensures p.Keys == PayloadKeys
    ensures forall k :: k in p && Truthy(Member(Get(rec, "data"), k)) ==> p[k] == Member(Get(rec, "data"), k)
    ensures forall k :: k in p && !Truthy(Member(Get(rec, "data"), k)) ==> p[k] == Str("")
  {
    var src := Get(rec, "data");
    map[
      "type" := Or(Member(src, "type"), Str("")),
      "topicId" := Or(Member(src, "topicId"), Str("")),
      "commentId" := Or(Member(src, "commentId"), Str("")),
      "notificationId" := Or(Member(src, "notificationId"), Str(""))]
  }

  /** The message sent for record `rec` to the (untrimmed) token `token`. */
  function BuildMessage(rec: Record, token: string): (m: Message)
    ensures Truthy(Get(rec, "title")) ==> m.notification.title == Get(rec, "title")
    ensures !Truthy(Get(rec, "title")) ==> m.notification.title == Str(DefaultTitle)
    ensures Truthy(Get(rec, "body")) ==> m.notification.body == Get(rec, "body")
    ensures !Truthy(Get(rec, "body")) ==> m.notification.body == Str("")
    ensures m.data == DataPayload(rec) && m.data.Keys == PayloadKeys
    ensures m.token == token
    ensures m.android.priority == "high" && m.android.channelId == "high_importance_channel"
    ensures m.android.sound == "default" && m.apns.sound == "default" && m.apns.badge == 1
  {
    Message(
      Notification(Or(Get(rec, "title"), Str(DefaultTitle)), Or(Get(rec, "body"), Str(""))),
      DataPayload(rec),
      token,
      HighPriorityAndroid,
      DefaultApns)
  }

  /** Update written when the token check fails: `sent` false, the fixed error, and `failedAt`. */
  function InvalidTokenUpdate(): (w: Record)
    ensures w.Keys == {"sent", "error", "failedAt"}
    ensures w["sent"] == Bool(false) && w["error"] == Str(InvalidTokenError) && w["failedAt"] == ServerTime
  {
    map["sent" := Bool(false), "error" := Str(InvalidTokenError), "failedAt" := ServerTime]
  }

  /** Update written when the send resolves: `sent` true, `sentAt`, and the returned id. */
  function SuccessUpdate(messageId: string): (w: Record)
    ensures w.Keys == {"sent", "sentAt", "messageId"}
    ensures w["sent"] == Bool(true) && w["sentAt"] == ServerTime && w["messageId"] == Str(messageId)
  {
    map["sent" := Bool(true), "sentAt" := ServerTime, "messageId" := Str(messageId)]
  }

  /** Update written when the `try` block throws `e`: `sent` false, the error text, and `failedAt`. */
  function FailureUpdate(e: Thrown): (w: Record)
    ensures w.Keys == {"sent", "error", "failedAt"}
    ensures w["sent"] == Bool(false) && w["error"] == ErrorText(e) && w["failedAt"] == ServerTime
  {
    map["sent" := Bool(false), "error" := ErrorText(e), "failedAt" := ServerTime]
  }

  /**
   * What one invocation does, given the snapshot, the gateway's reply and the store's
   * reply to the success write.
   */
  function Dispatch(snapshot: Option<Record>, reply: SendReply, ack: WriteReply): (o: Outcome)
    ensures snapshot.None? ==> o == NoEffect
    ensures snapshot.Some? && Truthy(Get(snapshot.value, "sent")) ==> o == NoEffect
    ensures snapshot.Some? && !Truthy(Get(snapshot.value, "sent")) ==> |o.writes| == 1
    ensures snapshot.Some? && !Truthy(Get(snapshot.value, "sent"))
              && !IsValidToken(Get(snapshot.value, "fcmToken")) ==>
              o == Outcome(None, [InvalidTokenUpdate()])
    ensures o.sent.Some? <==>
              snapshot.Some? && !Truthy(Get(snapshot.value, "sent"))
              && IsValidToken(Get(snapshot.value, "fcmToken"))
    ensures o.sent.Some? ==>
              o.sent.value == BuildMessage(snapshot.value, Get(snapshot.value, "fcmToken").s)
    ensures o.sent.Some? && reply.Delivered? && ack.Committed? ==>
              o.writes == [SuccessUpdate(reply.messageId)]
    ensures o.sent.Some? && reply.Failed? ==> o.writes == [FailureUpdate(reply.error)]
    ensures o.sent.Some? && reply.Delivered? && ack.Rejected? ==> o.writes == [FailureUpdate(ack.error)]
  {
    match snapshot
    case None => NoEffect
    case Some(rec) =>
      if Truthy(Get(rec, "sent")) then NoEffect
      else if !IsValidToken(Get(rec, "fcmToken")) then Outcome(None, [InvalidTokenUpdate()])
      else
        var message := BuildMessage(rec, Get(rec, "fcmToken").s);
        match reply
        case Failed(e) => Outcome(Some(message), [FailureUpdate(e)])
        case Delivered(id) =>
          match ack
          case Committed => Outcome(Some(message), [SuccessUpdate(id)])
          case Rejected(e) => Outcome(Some(message), [FailureUpdate(e)])
  }

  /**
   * The handler body. `doc` is `snap.ref`; `reply` is what the send does and `ack` what
   * the store answers to the success write. The writes for a bad token and for a failed
   * send are taken to commit. Returns the message handed to the gateway, if any.
   */
  method HandleCreated(event: Event, doc: DocumentRef, reply: SendReply, ack: WriteReply)
    returns (sent: Option<Message>)
    requires doc.Valid()
    modifies doc
    ensures doc.Valid() && doc.initial == old(doc.initial)
    ensures sent == Dispatch(event.snapshot, reply, ack).sent
    ensures doc.updates == old(doc.updates) + Dispatch(event.snapshot, reply, ack).writes
    ensures doc.fields == MergeAll(old(doc.fields), Dispatch(event.snapshot, reply, ack).writes)
  {
    if event.snapshot.None? {
      return None;
    }
    var rec := event.snapshot.value;
    if Truthy(Get(rec, "sent")) {
      return None;
    }
    var fcmToken := Get(rec, "fcmToken");
    if !IsValidToken(fcmToken) {
      var _ := doc.Update(InvalidTokenUpdate(), Committed);
      return None;
    }
    var message := BuildMessage(rec, fcmToken.s);
    sent := Some(message);
    match reply {
      case Delivered(id) =>
        var thrown := doc.Update(SuccessUpdate(id), ack);
        if thrown.Some? {
          var _ := doc.Update(FailureUpdate(thrown.value), Committed);
        }
      case Failed(e) =>
        var _ := doc.Update(FailureUpdate(e), Committed);
    }
  }

  // ---------------------------------------------------------------------------
  // Properties of the dispatch decision
  // ---------------------------------------------------------------------------

  /** The three updates set no common field except `sent`, which tells success from failure. */
  lemma UpdatesShareOnlySent(id: string, e: Thrown)
    ensures SuccessUpdate(id).Keys * FailureUpdate(e).Keys == {"sent"}
    ensures SuccessUpdate(id).Keys * InvalidTokenUpdate().Keys == {"sent"}
    ensures SuccessUpdate(id)["sent"] == Bool(true)
    ensures FailureUpdate(e)["sent"] == Bool(false) && InvalidTokenUpdate()["sent"] == Bool(false)
  {
  }

  /**
   * A record that is not skipped ends with `sent` true exactly when the token is usable,
   * the send resolved and the success write committed; otherwise `sent` is false. Either
   * way the matching timestamp and detail are stored.
   */
  lemma OutcomeRecorded(rec: Record, reply: SendReply, ack: WriteReply)
    requires !Truthy(Get(rec, "sent"))
    ensures var after := MergeAll(rec, Dispatch(Some(rec), reply, ack).writes);
      && "sent" in after
      && (after["sent"] == Bool(true) <==>
            IsValidToken(Get(rec, "fcmToken")) && reply.Delivered? && ack.Committed?)
      && (after["sent"] == Bool(true) ==>
            && reply.Delivered?
            && "sentAt" in after && after["sentAt"] == ServerTime
            && "messageId" in after && after["messageId"] == Str(reply.messageId))
      && (after["sent"] != Bool(true) ==>
            && after["sent"] == Bool(false)
            && "failedAt" in after && after["failedAt"] == ServerTime
            && "error" in after)
  {
    var o := Dispatch(Some(rec), reply, ack);
    if IsValidToken(Get(rec, "fcmToken")) && reply.Delivered? && ack.Committed? {
      assert o.writes == [SuccessUpdate(reply.messageId)];
      MarkedSent(rec, SuccessUpdate(reply.messageId), reply.messageId);
    } else {
      var w := o.writes[0];
      assert o.writes == [w];
      assert w["sent"] == Bool(false) && w["failedAt"] == ServerTime && "error" in w;
      MarkedFailed(rec, w);
    }
  }

  /** The document after the success update shows `sent` true with its timestamp and id. */
  lemma MarkedSent(rec: Record, w: Record, id: string)
    requires w == SuccessUpdate(id)
    ensures var after := MergeAll(rec, [w]);
      && "sent" in after && after["sent"] == Bool(true)
      && "sentAt" in after && after["sentAt"] == ServerTime
      && "messageId" in after && after["messageId"] == Str(id)
  {
  }

  /** The document after a failure update shows `sent` false with its timestamp and error. */
  lemma MarkedFailed(rec: Record, w: Record)
    requires "sent" in w && w["sent"] == Bool(false)
    requires "failedAt" in w && w["failedAt"] == ServerTime && "error" in w
    ensures var after := MergeAll(rec, [w]);
      && "sent" in after && after["sent"] == Bool(false)
      && "failedAt" in after && after["failedAt"] == ServerTime
      && "error" in after
  {
  }

  /**
   * A snapshot that already carries the success update is skipped by the `sent` guard: no
   * send and no write. The guard reads only the snapshot handed to the invocation, so this
   * covers a document created with those fields, or stored data run through the same logic.
   */
  lemma DeliveredRecordIsSkipped(rec: Record, id: string, reply: SendReply, ack: WriteReply)
    ensures Dispatch(Some(Merge(rec, SuccessUpdate(id))), reply, ack) == NoEffect
  {
    assert Get(Merge(rec, SuccessUpdate(id)), "sent") == Bool(true);
  }

  /** A record passing the guard and the token check, answered and committed, is sent once and marked sent. */
  lemma DeliveredAndCommitted(rec: Record, id: string)
    requires !Truthy(Get(rec, "sent")) && IsValidToken(Get(rec, "fcmToken"))
    ensures Dispatch(Some(rec), Delivered(id), Committed).sent == Some(BuildMessage(rec, Get(rec, "fcmToken").s))
    ensures Dispatch(Some(rec), Delivered(id), Committed).writes == [SuccessUpdate(id)]
  {
  }

  /**
   * The guard sees only the creation-time snapshot, never the stored document. When the
   * same creation event is delivered twice, the message is sent twice and the success
   * update is written twice, although the stored `sent` is already true after the first.
   */
  method RedeliveredEventSendsAgain(rec: Record, id: string)
    returns (first: Option<Message>, second: Option<Message>, updates: seq<Record>, stored: Record)
    requires !Truthy(Get(rec, "sent")) && IsValidToken(Get(rec, "fcmToken"))
    ensures first == Some(BuildMessage(rec, Get(rec, "fcmToken").s)) && second == first
    ensures updates == [SuccessUpdate(id), SuccessUpdate(id)]
    ensures "sent" in stored && stored["sent"] == Bool(true)
  {
    DeliveredAndCommitted(rec, id);
    var doc := new DocumentRef(rec);
    var event := Event(Some(rec));
    first := HandleCreated(event, doc, Delivered(id), Committed);
    assert doc.updates == [SuccessUpdate(id)];
    var once := doc.fields;
    second := HandleCreated(event, doc, Delivered(id), Committed);
    assert doc.fields == Merge(once, SuccessUpdate(id));
    updates := doc.updates;
    stored := doc.fields;
  }

  /**
   * A failure update leaves `sent` false, so a snapshot carrying either failure update
   * passes the guard and gets exactly one new write.
   */
  lemma FailedRecordIsNotSkipped(rec: Record, e: Thrown, reply: SendReply, ack: WriteReply)
    ensures |Dispatch(Some(Merge(rec, FailureUpdate(e))), reply, ack).writes| == 1
    ensures |Dispatch(Some(Merge(rec, InvalidTokenUpdate())), reply, ack).writes| == 1
  {
    assert Get(Merge(rec, FailureUpdate(e)), "sent") == Bool(false);
    assert Get(Merge(rec, InvalidTokenUpdate()), "sent") == Bool(false);
  }

  /**
   * Re-running on a record marked with the invalid-token update writes the same update
   * again; that second write keeps the same fields and changes none of them except the
   * failure time `failedAt`, which the store sets anew.
   */
  lemma InvalidTokenUpdateIsStable(rec: Record, reply: SendReply, ack: WriteReply)
    requires !Truthy(Get(rec, "sent")) && !IsValidToken(Get(rec, "fcmToken"))
    ensures var marked := Merge(rec, InvalidTokenUpdate());
      && Dispatch(Some(rec), reply, ack).writes == [InvalidTokenUpdate()]
      && Dispatch(Some(marked), reply, ack).writes == [InvalidTokenUpdate()]
      && Merge(marked, InvalidTokenUpdate()).Keys == marked.Keys
      && forall k :: k in marked && k != "failedAt" ==> Merge(marked, InvalidTokenUpdate())[k] == marked[k]
  {
    var marked := Merge(rec, InvalidTokenUpdate());
    assert Get(marked, "fcmToken") == Get(rec, "fcmToken");
    assert Get(marked, "sent") == Bool(false);
  }

  /** A token made only of whitespace (or empty) is rejected without a send. */
  lemma BlankTokenRejected(rec: Record, reply: SendReply, ack: WriteReply)
    requires !Truthy(Get(rec, "sent"))
    requires Get(rec, "fcmToken").Str?
    requires forall i :: 0 <= i < |Get(rec, "fcmToken").s| ==> IsJsWhitespace(Get(rec, "fcmToken").s[i])
    ensures Dispatch(Some(rec), reply, ack) == Outcome(None, [InvalidTokenUpdate()])
  {
    TrimEmptyIff(Get(rec, "fcmToken").s);
  }

  /**
   * The forwarded token is the stored string itself, surrounding whitespace included:
   * any string with a non-whitespace character is sent as it is.
   */
  lemma TokenForwardedUntrimmed(rec: Record, reply: SendReply, ack: WriteReply, i: nat)
    requires !Truthy(Get(rec, "sent"))
    requires Get(rec, "fcmToken").Str?
    requires i < |Get(rec, "fcmToken").s| && !IsJsWhitespace(Get(rec, "fcmToken").s[i])
    ensures Dispatch(Some(rec), reply, ack).sent.Some?
    ensures Dispatch(Some(rec), reply, ack).sent.value.token == Get(rec, "fcmToken").s
  {
    ValidTokenIff(Get(rec, "fcmToken"));
  }

  /** Read with optional-string fields, the title is the record's title unless absent or empty. */
  lemma TitleAndBodyDefaults(rec: Record, token: string)
    requires Get(rec, "title").Undefined? || Get(rec, "title").Str?
    requires Get(rec, "body").Undefined? || Get(rec, "body").Str?
    ensures var t := Get(rec, "title");
      BuildMessage(rec, token).notification.title == Str(if t.Str? && t.s != "" then t.s else DefaultTitle)
    ensures var b := Get(rec, "body");
      BuildMessage(rec, token).notification.body == Str(if b.Str? && b.s != "" then b.s else "")
  {
    OrOnOptionalString(Get(rec, "title"), DefaultTitle);
    OrOnOptionalString(Get(rec, "body"), "");
  }
}
