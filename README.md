# Chatbot application: chat list and send flow

This project models the two parts of the chatbot front end whose behaviour can be stated precisely.

- **The side bar's chat list** (`src/AllComponents/SideBar.tsx`). It holds the cached list of chats, the list actually drawn (`users`), the title text box, the open/closed flag and the last chat handed to `onSelectChat`. Creating a chat is allowed only when the trimmed title is non-empty and the user id is present and non-empty. The trimmed title is sent, and the chat the store returns is put at the front of the list. Deleting a chat filters its id out of the list, but only when the store reports a non-zero `affected_rows`. Selecting a chat fires only when both its id and its title are non-empty.
- **The message pane's send flow** (`src/AllComponents/Message.tsx`). It holds the message text box, the selected chat, the signed-in user and the fetched messages. The `messages` table is modelled as a map from chat id to that chat's messages: inserts only append, and reads return the messages in insertion order. `handleSend` does nothing unless the trimmed text is non-empty and both the chat id and the user id are present and non-empty. Otherwise it clears the box, stores the user's message, refetches and asks the completion service about that one message. It then stores the reply, or a fixed fallback text, as the bot's message and refetches again. The first step that fails ends the flow.

The results of remote calls are parameters of the model: what the insert and delete mutations return, whether each message insert and refetch succeeds, and what the completion service answers. The model handles one call at a time. The `useEffect` that copies the query's chats into `users` runs as part of every handler that changes the cache. `ChatList.Valid()` states what that gives: the drawn list is always the cached one.

Files: `wrappers.dfy` (Option, JavaScript truthiness of an optional string), `text.dfy` (JavaScript's `String.prototype.trim`), `sidebar.dfy`, `message.dfy`.

The code has no pending/confirmed/failed message states, no typing placeholder, no reconciliation of echoed messages, no limit on completions in flight, no deletion cascade, no clearing of the selection on delete and no local error message; the model follows the code. `ChatList.Delete` leaves the selection as it is, and no delete touches the `messages` table. When `fetch` rejects or the body is not JSON (src/AllComponents/Message.tsx:96, 109, 125-127), the error only reaches `console.error`, so only the user's message is stored. An error HTTP status with a JSON body is not looked at: the fallback text is stored as the bot's message (`ErrorStatusPersistsFallback`).

The guards `!userId`, `!chatId` and `skip: !chatId` use JavaScript truthiness, so an empty id counts as absent. The model's `Truthy` predicate says the same of an optional string.

## Model

| member | source | states |
|---|---|---|
| Text.StripStartCuts | src/AllComponents/SideBar.tsx:136 | stripping the front removes exactly the longest prefix made of the given characters: what is left is a suffix that does not start with one of them |
| Text.StripEndCuts | src/AllComponents/SideBar.tsx:136 | stripping the back removes exactly the longest suffix made of the given characters: what is left is a prefix that does not end with one of them |
| Text.StripIsMiddle | src/AllComponents/SideBar.tsx:136 | stripping both ends leaves the contiguous piece between a head and a tail made of the given characters, and the piece neither starts nor ends with one of them |
| Text.TrimIsMiddle | src/AllComponents/SideBar.tsx:132-136 | `trim()` returns the contiguous piece of the input between an all-whitespace head and an all-whitespace tail, and that piece neither starts nor ends with ECMAScript whitespace or a line terminator |
| Text.Trim | src/AllComponents/SideBar.tsx:132-136 | `trim()` is never longer than its input, and what it returns neither starts nor ends with ECMAScript whitespace or a line terminator |
| Text.IsBlank | src/AllComponents/Message.tsx:78 | `!s.trim()` holds exactly when every character of `s` is ECMAScript whitespace or a line terminator |
| Text.StripEmptyIff | src/AllComponents/SideBar.tsx:132 | a string strips to the empty string exactly when all of its characters are in the stripped set |
| SideBar.WithoutChat | src/AllComponents/SideBar.tsx:120 | a chat is in the filtered list exactly when it was in the list and its id differs from the deleted id; the list does not grow |
| SideBar.CacheAfterCreate | src/AllComponents/SideBar.tsx:88-101 | with no returned row the cache is unchanged; otherwise the new list is one longer, has the first returned chat at index 0 and has the old list (or an empty one) after it |
| SideBar.NothingDeleted | src/AllComponents/SideBar.tsx:108 | `!data?.delete_chats?.affected_rows` holds exactly when the count is absent or zero |
| SideBar.CacheAfterDelete | src/AllComponents/SideBar.tsx:107-123 | an absent or zero `affected_rows` leaves the cache unchanged; otherwise the cache holds exactly the chats it held whose id differs from the deleted one |
| SideBar.WithoutChatKeepsOrder | src/AllComponents/SideBar.tsx:118-121 | the chats left after a delete are a subsequence of the old list, in their original relative order |
| SideBar.WithoutChatCounts | src/AllComponents/SideBar.tsx:120 | every copy of every chat with another id is kept, and no chat with the deleted id remains |
| SideBar.WithoutChatAppend | src/AllComponents/SideBar.tsx:120 | filtering a concatenation is concatenating the filtered parts, so the filter works entry by entry |
| SideBar.WithoutAbsentChat | src/AllComponents/SideBar.tsx:120 | deleting an id that no listed chat has leaves the list as it was |
| SideBar.CreateThenDelete | src/AllComponents/SideBar.tsx:97-121 | creating a chat with a fresh id and then deleting it (with a non-zero count) gives back the chats that were cached before, in order |
| SideBar.ChatList.constructor | src/AllComponents/SideBar.tsx:76-78 | the title box, the cache and the drawn list start empty |
| SideBar.ChatList.SetInput | src/AllComponents/SideBar.tsx:191-195 | typing replaces the title box's text and nothing else |
| SideBar.ChatList.Loaded | src/AllComponents/SideBar.tsx:80-83 | the query result is cached and drawn when the user id is truthy; the query is skipped (nothing changes) when it is absent or empty |
| SideBar.ChatList.Create | src/AllComponents/SideBar.tsx:131-142 | a blank title or an absent or empty user id changes nothing and sends no request; otherwise the request carries the trimmed title and the user id, a resolved result updates the cache as `CacheAfterCreate` says, the box is cleared only when a row came back, and a rejected result changes nothing |
| SideBar.ChatList.Delete | src/AllComponents/SideBar.tsx:144-150 | a rejected delete changes nothing; a resolved one updates the cache as `CacheAfterDelete` says; the drawn list follows the cache, and the selection and the title box are untouched |
| SideBar.ChatList.Select | src/AllComponents/SideBar.tsx:152-157 | `{chat_id, title}` is fired and the side bar closes exactly when both the id and the title are non-empty; otherwise nothing changes |
| SideBar.ChatList.Close | src/AllComponents/SideBar.tsx:181-187 | the close button closes the side bar and changes nothing else |
| MessagePane.ContentAt | src/AllComponents/Message.tsx:110 | `data?.choices?.[0]?.message?.content` yields a value only when there is a body with at least one choice |
| MessagePane.ContentAtFirstChoice | src/AllComponents/Message.tsx:110 | the path reads only the first choice: it yields that choice's message content when the choice and its message are present, and nothing otherwise, whatever choices follow |
| MessagePane.ExtractReply | src/AllComponents/Message.tsx:109-110 | the reply is never empty; it is `choices[0].message.content` exactly when that value is present and non-empty, and `"Sorry, I couldn't respond."` otherwise |
| MessagePane.SideOf | src/AllComponents/Message.tsx:145-151 | a message is drawn on the bot's side exactly when its sender is the string `"bot"` |
| MessagePane.Bubbles | src/AllComponents/Message.tsx:141-154 | one bubble per message, in log order, with the message's content; a bubble is drawn as the bot's exactly when its sender is `"bot"`, and any other sender string is drawn as the user's |
| MessagePane.Render | src/AllComponents/Message.tsx:130-162 | the "Please select a chat" prompt is shown exactly when the chat id is absent or empty; otherwise the view is the fetched log drawn by `Bubbles` (no bubbles before the data arrives) |
| MessagePane.LogOf | src/AllComponents/Message.tsx:7-21 | GET_MESSAGES on a chat nobody has written to returns no messages |
| MessagePane.AppendAll | src/AllComponents/Message.tsx:7-21 | appending to one chat's log puts the new messages after the old ones in that chat's log, and every other chat's log is unchanged |
| MessagePane.AppendTwice | src/AllComponents/Message.tsx:84-122 | two appends to the same chat read back as one append of both, in order |
| MessagePane.RemoteLog.constructor | src/AllComponents/Message.tsx:7-21 | the store starts with the given logs |
| MessagePane.RemoteLog.Log | src/AllComponents/Message.tsx:7-21 | reading a chat nobody has written to returns no messages |
| MessagePane.RemoteLog.Insert | src/AllComponents/Message.tsx:23-48 | a successful insert appends the message to its chat's log; a rejected one stores nothing |
| MessagePane.Persisted | src/AllComponents/Message.tsx:83-127 | at most two messages are appended; the first is the user's trimmed text and is appended exactly when the user insert succeeds; two are appended exactly when a JSON body came back and the bot insert succeeded, and the second is then the bot's extracted reply |
| MessagePane.MessagePane.constructor | src/AllComponents/Message.tsx:61-69 | the text box starts empty and the chat's log is fetched only when the chat id is truthy (`skip: !chatId`) |
| MessagePane.MessagePane.SetContent | src/AllComponents/Message.tsx:167-169 | typing replaces the message box's text and nothing else |
| MessagePane.MessagePane.ChangeChat | src/AllComponents/Message.tsx:63-67 | a new chat is fetched afresh; with an absent or empty chat id the query is skipped and there is no data; the text box keeps its text |
| MessagePane.MessagePane.View | src/AllComponents/Message.tsx:130-162 | the pane shows the prompt exactly when its chat id is absent or empty, and otherwise its fetched messages drawn by `Bubbles` |
| MessagePane.MessagePane.Send | src/AllComponents/Message.tsx:77-82 | it does nothing (box, data and store unchanged, no request) unless the trimmed text is non-empty and both the chat id and the user id are truthy; otherwise the box is cleared and the store grows by exactly `Persisted` of the trimmed text |
| MessagePane.MessagePane.Exchange | src/AllComponents/Message.tsx:83-127 | the store grows by `Persisted`; a completion request is sent exactly when the user insert and the refetch succeeded, and it holds one turn, role `"user"` with the trimmed text, and `max_tokens` 300; the data shown is the refetched log at the last successful refetch |
| MessagePane.FullSuccess | src/AllComponents/Message.tsx:84-124 | when every step succeeds the log grows by two messages, senders `"user"` then `"bot"` |
| MessagePane.ErrorStatusPersistsFallback | src/AllComponents/Message.tsx:96-122 | whatever the HTTP status, a JSON body without the reply path still stores the fallback text as the bot's message |
| MessagePane.PersistedKeepsBotFollowsUser | src/AllComponents/Message.tsx:84-122 | one send keeps every bot message directly after a user message |
| MessagePane.AfterSend | src/AllComponents/Message.tsx:77-128 | one `handleSend` keeps the chat's log as a prefix and adds at most two messages; a blank text adds none |
| MessagePane.Replay | src/AllComponents/Message.tsx:77-128 | a series of sends never shrinks the log and adds at most two messages per send |
| MessagePane.ReplayAppendOnly | src/AllComponents/Message.tsx:84-122 | over any series of sends, the messages already in the log stay as they were, at the front |
| MessagePane.ReplayKeepsBotFollowsUser | src/AllComponents/Message.tsx:77-128 | over any series of sends, whichever steps fail, every bot message comes directly after a user message |
| MessagePane.BubblesAppend | src/AllComponents/Message.tsx:141-162 | drawing a log is drawing each part of it in turn, so the bubbles follow the log's order |
| MessagePane.FullSuccessDrawn | src/AllComponents/Message.tsx:141-151 | after a fully successful send, the earlier messages are drawn as before, followed by exactly two bubbles: the user's text on the user's side and the reply on the bot's |

## Left out

- I/O and timing: the network, console logging, toasts, scrolling to the bottom, animations and `formatDistanceToNow` date text are not modelled.
- Concurrency: overlapping `handleSend` calls and the `disabled={creating}` button guard concern calls in flight. The model handles one call at a time.
- The completion request's URL (src/AllComponents/Message.tsx:96) and `Content-Type` header (:99) are literals; the API key (:100) and the model name (:103) come from `import.meta.env`. None of them is part of the request the model records, which holds only the messages and `max_tokens`.
- MessagePane.ExtractReply: a non-string `content` value, such as a number, is not modelled. `||` would pass such a value through, but the model only holds strings.
- Text.Trim: works on Unicode scalar values where JavaScript works on UTF-16 code units. The two trims agree, because every character that `trim` removes is in the Basic Multilingual Plane.
- SideBar.ChatList.Loaded: the side bar's loading and error displays (src/AllComponents/SideBar.tsx:206-211) are not modelled. They are presentation only.
- MessagePane.ReplayKeepsBotFollowsUser: assumes that only this pane writes to the chat's log, one send at a time. Writes by other clients are outside the model.
- Login, sign-up, routing, the navigation bar and the Apollo client configuration have no chat or message logic. They are not part of this model.
- `DELETE_ALL_MESSAGES_BY_CHATID` (src/graphql/mutations.tsx:44-50) is never called by the core, so it is not modelled.
