# Push-notification dispatch, modelled in Dafny

This project models the `sendPushNotification` Cloud Function. It is a
Firestore trigger that runs when a document is created under
`push_notifications/{notificationId}`. Each invocation works on the snapshot of the
document as it was created, and does these steps in order:

1. If the event carries no snapshot, it returns.
2. If the record's `sent` field is truthy, it returns.
3. It checks the `fcmToken` field. If the token is missing, is not a string, or is blank
   after `trim()`, it writes a failure update and returns.
4. It builds a Firebase Cloud Messaging (FCM) message:
   - the title and body are defaulted with JavaScript `||`;
   - the `data` payload has exactly four keys;
   - the platform hints are fixed.
5. It sends the message and records the outcome on the document with one update, either
   `{sent: true, sentAt, messageId}` or `{sent: false, error, failedAt}`.

Modules:

- `Wrappers` (wrappers.dfy): the `Option` datatype.
- `JsValues` (js_values.dfy): the JavaScript semantics the handler relies on: document
  values, truthiness, `||`, property reads with `?.`, caught errors, and
  `String.prototype.trim` with the ECMAScript WhiteSpace and LineTerminator characters.
- `Firestore` (firestore.dfy): a `DocumentRef` class. Its `Update` merges a patch into the
  stored fields and logs it, or leaves the document unchanged when the store rejects the
  write.
- `SendPushNotification` (send_push_notification.dfy): the message builder and the three
  updates. `Dispatch` is a specification function giving everything one invocation does.
  `HandleCreated` is the handler as a method over a `DocumentRef`, proved to match
  `Dispatch`. The lemmas state the handler's properties.
- `Scenarios` (scenarios.dfy): concrete records run through `Dispatch`.

The network send is an input, `SendReply`: `Delivered(messageId)`, or `Failed(error)` with
the thrown error's `message` and its `toString()` form.

The success write sits inside the `try` block, so a rejected success write is caught and
followed by the failure update. The store's reply to that one write is therefore an input
too (`WriteReply`).

Three details of the code the model keeps:

- The `data.sent` guard reads only the creation-time snapshot, never the stored document.
  A creation event delivered a second time therefore sends the message again and writes
  the success update again, even though the stored `sent` is already true
  (`RedeliveredEventSendsAgain`). The guard skips only a document created with a truthy
  `sent`, or stored data run through the same logic, as the disabled retry sweep intends.
- The record carries only a boolean `sent`; there is no separate failed state. A failure
  writes `sent: false`, so data carrying a failure update passes the guard
  (`FailedRecordIsNotSkipped`).
- The error written for a bad token is `FCM token is missing or invalid`.
- The forwarded token is the stored string, untrimmed.

## Model

| member | source | states |
|---|---|---|
| `JsValues.LeadingWhitespace` | functions/index.js:32 | counts the whitespace `trim` removes at the front: every counted character is whitespace and the first one after them is not |
| `JsValues.TrailingWhitespace` | functions/index.js:32 | counts the whitespace `trim` removes at the back: every counted character is whitespace and the last one before them is not |
| `JsValues.TrimStart` | functions/index.js:32 | the leading characters removed by `trim` are all whitespace, the rest is kept as a suffix, and it does not start with whitespace |
| `JsValues.TrimEnd` | functions/index.js:32 | the trailing characters removed by `trim` are all whitespace, the rest is kept as a prefix, and it does not end with whitespace |
| `JsValues.Trim` | functions/index.js:32 | `trim()` never lengthens a string and leaves no whitespace at either end |
| `JsValues.TrimIsSlice` | functions/index.js:32 | `trim()` returns the slice of the string that starts where the leading whitespace ends; everything cut off before and after it is whitespace |
| `JsValues.TrimEmptyIff` | functions/index.js:32 | `s.trim() === ''` holds exactly when every character of `s` is JavaScript whitespace |
| `JsValues.Get` | functions/index.js:25-53 | reading a top-level field (`data.sent`, `data.fcmToken`, `data.title`, `data.body`, `data.data`) gives `undefined` exactly when the field is missing or holds `undefined` |
| `JsValues.WhitespaceRange` | functions/index.js:32 | the characters `trim()` removes (`IsJsWhitespace`): among ASCII characters exactly tab, line feed, vertical tab, form feed, carriage return and space, and none above U+FEFF |
| `JsValues.Truthy` | functions/index.js:25 | a value is falsy exactly when it is `undefined`, `null`, `false`, `0`, NaN or `''`; every other value, objects and infinities included, is truthy |
| `JsValues.Or` | functions/index.js:46-53 | `a \|\| b` is `a` when `a` is truthy and `b` otherwise, and as a condition it is truthy exactly when one of the operands is |
| `JsValues.Member` | functions/index.js:50-53 | `data.data?.key` reads `undefined` unless `data.data` is an object holding that key |
| `JsValues.ErrorText` | functions/index.js:100 | the recorded error is the thrown error's message when truthy, otherwise its string form |
| `JsValues.OrOnOptionalString` | functions/index.js:46-53 | for a field that is absent or a string, `x \|\| d` is `x` when non-empty and `d` otherwise |
| `SendPushNotification.IsValidToken` | functions/index.js:32 | only a non-empty string can pass the token check |
| `SendPushNotification.ValidTokenIff` | functions/index.js:31-32 | a token passes the check exactly when it is a string containing a non-whitespace character |
| `SendPushNotification.DataPayload` | functions/index.js:49-54 | the data payload has exactly the keys `type`, `topicId`, `commentId`, `notificationId`; each is the record's value when truthy and `''` otherwise; other keys are dropped |
| `SendPushNotification.BuildMessage` | functions/index.js:44-71 | title defaults to `알림` and body to `''` when falsy; the token is passed through; android priority `high`, channel `high_importance_channel`, sound `default`, APNs sound `default`, badge 1 |
| `SendPushNotification.InvalidTokenUpdate` | functions/index.js:36-40 | the bad-token write sets exactly `sent` false, the error `FCM token is missing or invalid` and `failedAt` |
| `SendPushNotification.SuccessUpdate` | functions/index.js:84-88 | the success write sets exactly `sent` true, `sentAt` and the id the send returned |
| `SendPushNotification.FailureUpdate` | functions/index.js:98-102 | the failure write sets exactly `sent` false, the error's message (or its string form) and `failedAt` |
| `SendPushNotification.Dispatch` | functions/index.js:12-103 | no snapshot or a truthy `sent` gives no send and no update; otherwise exactly one update is committed (the invalid-token and failure writes are taken to commit); a bad token gives only the invalid-token update and no send; a send happens exactly when the guard and the token check pass, with the built message; the success update is written only when the send resolves and its write commits, and the failure update otherwise |
| `SendPushNotification.HandleCreated` | functions/index.js:11-104 | the handler returns the message that `Dispatch` sends; the document's update log grows by exactly `Dispatch`'s updates; its fields become those updates merged in |
| `Firestore.Merge` | functions/index.js:84-88 | an update sets the fields it names and leaves every other field as it was |
| `Firestore.DocumentRef.Update` | functions/index.js:36-40 | a committed update merges the patch and is logged once; a rejected one changes nothing and is returned as thrown; either way the stored fields stay the created fields with the logged updates merged in order |
| `SendPushNotification.UpdatesShareOnlySent` | functions/index.js:84-102 | the success update shares only the `sent` field with the failure and invalid-token updates; `sent` is true on success and false on both failures |
| `SendPushNotification.OutcomeRecorded` | functions/index.js:80-102 | after a record that passes the guard is handled, `sent` is true exactly when the token was usable, the send resolved and the write committed, with `sentAt` and the returned `messageId`; otherwise `sent` is false, with `failedAt` and an `error` |
| `SendPushNotification.DeliveredRecordIsSkipped` | functions/index.js:25-28 | a snapshot that already carries the success update (created that way, or stored data run through the same logic) is skipped: no send and no write |
| `SendPushNotification.DeliveredAndCommitted` | functions/index.js:80-88 | a record passing the guard and the token check, whose send resolves and whose write commits, is sent the built message and gets only the success update |
| `SendPushNotification.RedeliveredEventSendsAgain` | functions/index.js:11-28 | the guard sees only the creation-time snapshot: the same creation event handled twice sends the same message twice and logs two success updates, although the stored `sent` is true after the first |
| `SendPushNotification.FailedRecordIsNotSkipped` | functions/index.js:25-28 | a snapshot carrying the failure or invalid-token update passes the guard and gets one new update |
| `SendPushNotification.InvalidTokenUpdateIsStable` | functions/index.js:32-41 | handling a record with a bad token again writes the same update; that second write keeps the same fields and leaves every one of them except `failedAt` (which the store sets to the new time) as it was |
| `SendPushNotification.BlankTokenRejected` | functions/index.js:32-41 | an empty or whitespace-only token gives the invalid-token update and no send |
| `SendPushNotification.TokenForwardedUntrimmed` | functions/index.js:55 | a string token with any non-whitespace character is sent, unchanged, surrounding whitespace included |
| `SendPushNotification.TitleAndBodyDefaults` | functions/index.js:45-48 | with string-or-absent fields, the title is the record's title unless it is empty or absent (then `알림`), and likewise the body (then `''`) |
| `Scenarios.CommentPayloadExample` | functions/index.js:49-54 | a `data` object holding only `type` and `topicId` is forwarded with those two values and `commentId` and `notificationId` set to `''` |
| `Scenarios.DeliveredCommentExample` | functions/index.js:44-88 | an unsent record with token `tok123`, title `New comment`, body `Hi` and a `comment` payload, answered with id `abc`, sends exactly the message with that title, body and token, the payload `type`, `topicId` plus two empty keys and the fixed hints, and writes only the success update |
| `Scenarios.EmptyTokenExample` | functions/index.js:32-41 | a record with an empty token gets only the invalid-token update and nothing is sent |

## Left out

- frontend/ios/Runner/AppDelegate.swift: native app start-up that configures Firebase, registers plugins and hands the APNs token to Firebase Messaging. It is SDK calls with no logic of its own.
- `admin.initializeApp()` and the trigger registration (document path, region): platform wiring.
- `admin.messaging().send`: a network call into a foreign library. Its result is the `SendReply` input. FCM's own validation of the message, such as rejecting a title that is not a string, shows up only as a `Failed` reply.
- Server timestamps: the `ServerTime` marker stands for `FieldValue.serverTimestamp()`. No clock is modelled.
- Logging, including the `substring(0, 20)` of the token in a log line, and `event.params.notificationId`, which is only logged. Neither affects behaviour.
- The commented-out retry sweep at the end of the file: it is disabled code.
- Concurrent invocations and the platform's at-least-once trigger delivery: these belong to the hosting platform. Only a redelivery handled after the first invocation finished is modelled (`RedeliveredEventSendsAgain`); interleaved invocations are not.
- SendPushNotification.Dispatch: its promise that a record passing the guard gets exactly one committed update, and the `OutcomeRecorded` lemma built on it, assume the invalid-token write and the failure write commit; a rejection of either ends the invocation with that error and no update, as the next line says.
- SendPushNotification.HandleCreated: assumes the invalid-token write and the failure write commit. If the store rejects either, the invocation ends with that error and the document is unchanged. Only the success write's rejection is an input, because only that one is caught by the handler.
- JsValues.Thrown: a caught value always has a `message` property here. A thrown `null` or `undefined` would make the error-logging line itself throw, and that is not modelled.
- JsValues.JsValue: finite numbers are reals, with the infinities and NaN kept apart, so `-0` and floating-point rounding are not modelled. Property reads do not model inherited prototype properties, since none of the keys read (`sent`, `fcmToken`, `title`, `body`, `data` and the four payload keys) is one.
