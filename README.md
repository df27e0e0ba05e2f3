# Chat room message view: pagination, transactions and delete cascade

A Dafny model of the message-view logic of a chat client
(`src/components/chat_window/messages/index.jsx`). The view subscribes to the
last `limit` messages of one room in a realtime store, pins the list to the
bottom when a snapshot arrives while the reader is near it, grows the window by
one page on "Load more", toggles admin permissions and likes with atomic
transactions, and deletes a message together with the room's denormalised
`lastMessage` in one multi-path update.

Modules, one per concern of that file:

- `Wrappers` (`wrappers.dfy`): `Option`, for values that may be `null`.
- `Presence` (`presence.dfy`): maps from user id to `true` (`admins`, `likes`),
  modelled by their key sets; `Toggle` and its laws; `PresenceMap`, the mutable
  object a transaction body receives.
- `Feed` (`feed.dfy`): message records, the room filter, `limitToLast`, the
  query result and the "Load more" test.
- `Scroll` (`scroll.dfy`): `shouldScrollToBottom`, both as the JavaScript
  expression over JavaScript numbers and in cross-multiplied integer form, with
  a lemma that the two agree on every input.
- `Transactions` (`transactions.dfy`): the admin and like update functions as
  value-level functions, and the bodies as methods that mutate the passed-in
  object in place, proved equal to those functions.
- `Delete` (`delete.dfy`): the update map of `handleDelete`, the store as a map
  from path to value, and the gating of the commit and the storage deletion.
- `Pagination` (`pagination.dfy`): the `Messages` component's state as a class
  (`limit`, the listeners registered on the feed, `messages`, the scroll
  position), with the effects and callbacks as methods.

Inputs from the environment are parameters: the current user id, the confirm
answer, the result of the multi-path update and of the storage deletion, the
store contents a snapshot is taken from, and the heights the browser lays out.

Behaviour of the code a reader may not expect:

- `limit` is never reset when the room changes. The component keeps its
  state across a change of `chatId`, and `loadMessages` only adds a page
  (`Pagination.MessagesView.ChangeRoom`). The first "Load more" in the new room
  can then jump by several pages. Whether the component is remounted per room
  depends on the `Chat` component, which is not part of this model.
- After "Load more" the code sets `scrollTop` to the growth of the content
  alone (`newHeight - oldHeight`), not the growth added to the previous
  offset (`Pagination.MessagesView.RestoreAnchor`).
- The pin test inside the snapshot callback uses the heights from before the
  new messages are rendered (`Pagination.MessagesView.Deliver`). This assumes
  the renderer batches the `setMessages` call in the `onValue` callback and
  renders after the callback returns; a renderer that updated the list
  synchronously would give the new heights there.
- On a room change the old room's `messages` stay shown until the new
  subscription delivers its first snapshot.
- "Load more" compares the loaded count with the page size, not with the
  window size. A room of at least 15 messages therefore keeps the button even
  when the window already holds the whole room, for example 20 messages in a
  window of 30 (`Feed.LoadMoreShownForWholeRoom`).

## Model

| member | source | states |
|---|---|---|
| Presence.Toggle | src/components/chat_window/messages/index.jsx:101-107 | the flipped user is a member afterwards iff it was not before; every other user keeps its membership |
| Presence.ToggleTwice | src/components/chat_window/messages/index.jsx:100-107 | toggling the same user twice gives back the original set |
| Presence.ToggleSize | src/components/chat_window/messages/index.jsx:130-142 | one toggle changes the member count by exactly one, down when the user was a member, up otherwise |
| Presence.ToggleAllParity | src/components/chat_window/messages/index.jsx:128-147 | after any sequence of toggles a user's membership equals its original membership exactly when the user was toggled an even number of times |
| Presence.PresenceMap.Put | src/components/chat_window/messages/index.jsx:105 | `obj[uid] = true` adds exactly that key |
| Presence.PresenceMap.Delete | src/components/chat_window/messages/index.jsx:102 | `obj[uid] = null` removes exactly that key once written back |
| Feed.RoomFeed | src/components/chat_window/messages/index.jsx:46-49 | the room filter yields exactly the store's messages of that room, all with that room id |
| Feed.LoadMoreShownForWholeRoom | src/components/chat_window/messages/index.jsx:246 | a room of at least a page that the window holds completely still shows "Load more" |
| Feed.RoomFeedOfConcat | src/components/chat_window/messages/index.jsx:46-49 | the room filter distributes over concatenation, so it keeps the store's order |
| Feed.LimitToLast | src/components/chat_window/messages/index.jsx:50 | the window is a suffix of the feed of at most `n` messages, and the whole feed when shorter than `n` |
| Feed.QueryResult | src/components/chat_window/messages/index.jsx:45-53 | a snapshot is a tail of the room's feed holding only that room's messages: the whole feed when it has at most `limitToLast` messages, otherwise exactly `limitToLast` of them |
| Feed.WindowGrowthKeepsSuffix | src/components/chat_window/messages/index.jsx:45-51 | for `n <= m` the `limitToLast(n)` result is a suffix of the `limitToLast(m)` result |
| Feed.EffectiveLimit | src/components/chat_window/messages/index.jsx:50 | `limitToUse \|\| PAGE_SIZE` is the argument when one is given and non-zero, and exactly one page otherwise |
| Feed.CanLoadMore | src/components/chat_window/messages/index.jsx:246 | "Load more" is shown exactly when messages are loaded and there are at least a page of them; never before the first snapshot |
| Feed.HiddenLoadMoreMeansWholeRoom | src/components/chat_window/messages/index.jsx:246 | when "Load more" is hidden for a window of at least a page, the window already holds the whole room |
| Scroll.ShouldScrollToBottom | src/components/chat_window/messages/index.jsx:23-28 | never pins at the top of a scrollable list, always pins at its bottom for thresholds under 100, and without overflow at the top gives false for non-negative thresholds |
| Scroll.JsDivide | src/components/chat_window/messages/index.jsx:25 | JavaScript division: finite iff the divisor is non-zero, and then the quotient times the divisor is the dividend; `NaN` exactly for 0 / 0, `+Infinity` exactly for a positive dividend over 0 |
| Scroll.JsOrZero | src/components/chat_window/messages/index.jsx:25 | `x \|\| 0` never yields `NaN`, replaces only a falsy number by 0, and keeps every other number |
| Scroll.JsGreater | src/components/chat_window/messages/index.jsx:27 | `x > threshold` compares finite numbers as reals, holds for `+Infinity`, and fails for `NaN` and `-Infinity` |
| Scroll.ShouldScrollToBottomJs | src/components/chat_window/messages/index.jsx:24-27 | the expression as written: without overflow, `scrollTop` 0 gives the `\|\| 0` fallback (true only for a negative threshold), a positive `scrollTop` gives `Infinity` (true), a negative one `-Infinity` (false) |
| Scroll.ShouldScrollToBottomMatchesJs | src/components/chat_window/messages/index.jsx:23-28 | the cross-multiplied integer test equals the JavaScript percentage test with its `NaN`, infinity and `\|\| 0` cases, for all inputs |
| Scroll.ShouldScrollToBottomExamples | src/components/chat_window/messages/index.jsx:23-27 | worked examples at threshold 30: scrollTop 0 of 1000/500 gives false, 800 gives true, no overflow gives false |
| Transactions.AdminAlertText | src/components/chat_window/messages/index.jsx:103-106 | the removed and granted alerts have the source's two texts, one per tag |
| Transactions.AdminUpdate | src/components/chat_window/messages/index.jsx:99-110 | a missing `admins` map is returned as it is with no alert; otherwise `uid` is flipped, nobody else changes, and the alert is "granted" iff `uid` is now an admin |
| Transactions.AdminUpdateTwice | src/components/chat_window/messages/index.jsx:100-107 | two runs for the same user restore `admins` (also when missing) and give opposite alerts |
| Transactions.AdminTransactionBody | src/components/chat_window/messages/index.jsx:97-111 | the in-place body returns the object it was given and leaves it holding the value the admin update function gives, with the same alert |
| Transactions.LikeAlertText | src/components/chat_window/messages/index.jsx:133-142 | the removed and added alerts have the source's two texts, one per tag |
| Transactions.ToggleLike | src/components/chat_window/messages/index.jsx:129-144 | a liker is removed and the count drops by one, a non-liker is added, `likes` created if missing, and the count rises by one; no other user or field changes |
| Transactions.LikeUpdate | src/components/chat_window/messages/index.jsx:128-147 | a missing message is returned as it is with no alert; otherwise the like is toggled and the alert is "added" iff the user now likes it |
| Transactions.ToggleLikeKeepsCount | src/components/chat_window/messages/index.jsx:130-142 | if `likeCount == \|likes\|` before a toggle it holds after it |
| Transactions.ToggleLikeTwice | src/components/chat_window/messages/index.jsx:130-142 | two toggles by one user restore the message, with a missing `likes` object coming back empty |
| Transactions.ApplyLikesKeepsCount | src/components/chat_window/messages/index.jsx:128-147 | any sequence of committed like toggles keeps `likeCount == \|likes\|` |
| Transactions.ApplyLikesLikers | src/components/chat_window/messages/index.jsx:128-147 | the likers after a sequence of toggles are the original likers toggled by that sequence |
| Transactions.ApplyLikesParity | src/components/chat_window/messages/index.jsx:128-147 | after a sequence of toggles a user's like state equals its original like state exactly when the user toggled an even number of times |
| Transactions.LikeTransactionBody | src/components/chat_window/messages/index.jsx:128-147 | the in-place body returns the object it was given, leaves it holding the value the like update function gives, and allocates `likes` only when it was missing |
| Delete.MessagePath | src/components/chat_window/messages/index.jsx:167 | the message key is `/messages/` followed by exactly the message id |
| Delete.LastMessagePath | src/components/chat_window/messages/index.jsx:170 | the room key is `/rooms/`, exactly the room id, then `/lastMessage` |
| Delete.PathsDistinct | src/components/chat_window/messages/index.jsx:167-177 | the message path and the `lastMessage` path are never the same key |
| Delete.LastMessageOf | src/components/chat_window/messages/index.jsx:170-173 | the copied `lastMessage` carries the item's record and `id`, and `msgId` equal to that id |
| Delete.BuildDeleteUpdates | src/components/chat_window/messages/index.jsx:163-178 | the message path is set to null; `lastMessage` becomes the second-to-last item when the target is the last of several, null when it is the only one, and is absent otherwise; no other path appears |
| Delete.DeleteUpdatesUnique | src/components/chat_window/messages/index.jsx:163-178 | the description of the update map determines it completely |
| Delete.ApplyUpdates | src/components/chat_window/messages/index.jsx:181 | a multi-path update sets every named path, deletes those set to null, and leaves every other path as it was |
| Delete.DeleteCascade | src/components/chat_window/messages/index.jsx:163-181 | after the commit the message is gone, `lastMessage` is the new last item, gone, or untouched, and all other paths are unchanged |
| Delete.CascadeMatchesFeed | src/components/chat_window/messages/index.jsx:163-178 | when the window is the `limitToLast(n)` of the room's feed for some `n >= 2` and the room's last message is deleted, `lastMessage` names the room's new last message, or is deleted when the room becomes empty |
| Delete.Backend.MultiPathUpdate | src/components/chat_window/messages/index.jsx:181 | the store changes as the update map says when the commit succeeds and not at all when it fails |
| Delete.Backend.DeleteObject | src/components/chat_window/messages/index.jsx:199-200 | a successful storage deletion removes exactly that object; a failed one removes nothing |
| Delete.StoredExternally | src/components/chat_window/messages/index.jsx:197 | storage deletion applies exactly when a file exists and it is not base64 |
| Delete.HandleDelete | src/components/chat_window/messages/index.jsx:156-208 | declining, an empty window or a failed commit write nothing; storage is touched only after a commit of an externally stored file; a storage failure keeps the deletion; the toasts shown in each case |
| Pagination.MessagesView.constructor | src/components/chat_window/messages/index.jsx:32-33 | `messages` starts missing, `limit` starts at one page, nothing is subscribed |
| Pagination.MessagesView.LoadMessages | src/components/chat_window/messages/index.jsx:39-65 | after `off` and `onValue` exactly one listener remains, for the room and `limitToUse \|\| PAGE_SIZE`, and `limit` grows by exactly one page |
| Pagination.MessagesView.Mount | src/components/chat_window/messages/index.jsx:79-82 | mounting subscribes to one page of the current room |
| Pagination.MessagesView.ScrollToBottom | src/components/chat_window/messages/index.jsx:84-86 | the delayed mount correction moves the view to the bottom |
| Pagination.MessagesView.Unmount | src/components/chat_window/messages/index.jsx:88-90 | the cleanup leaves no listener |
| Pagination.MessagesView.ChangeRoom | src/components/chat_window/messages/index.jsx:79-91 | after a room change the only listener is one page of the new room, and `limit` keeps growing |
| Pagination.MessagesView.Deliver | src/components/chat_window/messages/index.jsx:52-59 | a snapshot sets `messages` to the listener's query result, all of the shown room, and pins to the bottom exactly when the pin test holds |
| Pagination.MessagesView.OnLoadMore | src/components/chat_window/messages/index.jsx:67-72 | the height is remembered and the new window is the old `limit`, at least one page larger than the previous window |
| Pagination.MessagesView.ShowsLoadMore | src/components/chat_window/messages/index.jsx:246 | the view shows "Load more" exactly when its loaded `messages` number at least a page |
| Pagination.MessagesView.RestoreAnchor | src/components/chat_window/messages/index.jsx:73-76 | the delayed correction sets `scrollTop` to the growth of the content height |
| Pagination.LoadMoreExtendsWindow | src/components/chat_window/messages/index.jsx:45-51 | the snapshot of a smaller window for a room is a suffix of the snapshot of a larger one |
| Pagination.LoadMoreScenario | src/components/chat_window/messages/index.jsx:39-82 | mount then "Load more" shows the last 15, then the last 30 messages of the room, the first a tail of the second |
| Pagination.ChangeRoomScenario | src/components/chat_window/messages/index.jsx:39-91 | after a room change the next snapshot shows only the new room's messages |

## Left out

- Day grouping in `renderMessages` (lines 214-242): it relies on `groupBy` and `transformToArrWithId`, which are not part of this model, and on local-time-zone dates.
- Rendering, hooks and toasts: the alert of each transaction is a returned tag with its text; `handleDelete` returns the list of toasts it pushes.
- The store's transaction retry loop, the atomicity of the multi-path update, and listener delivery are the store's. The model gives the value and alert of a single run of a transaction body on the value it is given; a re-run on conflict is given the newer value. The alert the code shows is not modelled across re-runs: `alertMsg` is a variable outside the body that only a run seeing a present value sets, so when the run that commits sees a missing value the toast shows the alert of an earlier run.
- `off(messagesRef)` is taken to remove every listener registered on queries of `/messages`, as the view relies on.
- The two `setTimeout(…, 200)` delays: each delayed callback is a method the caller runs afterwards (`ScrollToBottom`, `RestoreAnchor`), and layout changes come in through `Relayout`.
- `window.confirm`, the current user, the commit result and the storage result are parameters.
- The conversion of a snapshot into the `messages` array (`transformToArrWithId(snap.val())`, line 53) is not part of this model. It is assumed to keep the query's order, to tag each record with its store key as `id`, and to turn no data into an empty array; `Deliver` sets `messages` to the query result directly.
- The order of `/messages` in the store is given by the caller; the model does not derive it from push ids or `createdAt`.
- Presence maps are taken to hold only `true` values, so a key's truthiness (`admins[uid]`, `msg.likes[uid]`) is its presence; a stored `false` is not modelled.
- Writing `null` at a path deletes only that path; nested paths are not modelled, and neither is the store dropping an object left with no keys. An emptied `likes` stays as an empty set, and so does an emptied `admins`.
- Transactions.AdminUpdate: when `uid` is the only admin, removing it writes back `{uid: null}` and the store deletes `/rooms/<chatId>/admins`; every later run then sees `admins` missing, changes nothing and shows no alert, while the model keeps an empty set and grants `uid` again on the next run.
- Transactions.AdminUpdateTwice: the round trip holds for the update function applied twice, not through the store when `uid` is the only admin (the first write-back deletes the map, so the second run does nothing).
- Transactions.ToggleLike: assumes `likeCount` is present and an integer; a missing `likeCount` (JavaScript `undefined + 1`, giving `NaN`) is not modelled.
- Scroll.ShouldScrollToBottomMatchesJs: JavaScript division is taken as exact real division; double rounding, fractional pixel offsets and the browser clamping `scrollTop` to its range are not modelled.
- The browser clamping of `node.scrollTop = node.scrollHeight` to the largest scroll offset is not modelled; the assignment is taken as written.
- Whether the loaded window is the true tail of the room is not checked by the code; `Delete.CascadeMatchesFeed` states when it is.
