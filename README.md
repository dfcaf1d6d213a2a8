# Messenger frontend: call session, chat store, chat ordering, user search, call timer

A Dafny model of the sequential logic of a messenger web frontend. The app
keeps its chats and messages in memory and runs one-to-one audio/video calls
over WebRTC.

- `web_rtc.dfy`, module `WebRTC`: the call-session manager behind the
  `useWebRTC` hook. It is a class with one slot each for the local stream,
  the peer connection and the remote stream, plus the `isCallActive`,
  `isVideoEnabled`, `isMuted` and `remoteUserId` flags. Tracks, streams and
  peer connections are small classes. A track has a kind, an `enabled` bit
  and a `stopped` bit. A peer connection records its attached tracks, its
  descriptions, the negotiation calls made on it, and whether it is closed.
  What the media device answers is a function from the requested constraints
  to an `Acquisition`. What `createOffer`/`createAnswer` and
  `set*Description` answer is a `Negotiator` value. Each invocation of the
  `onCallEnded` callback is recorded, together with the view it observes.
- `index_page.dfy`, module `IndexPage`: the `User`, `Message` and `Chat`
  records; the pure list updaters behind the page's handlers; and a
  `Messenger` class whose methods write the `chats`, `messages`,
  `selectedChat`, `showSearch`, call-dialog and `callDuration` slots in the
  source's order.
- `chat_list.dfy`, module `ChatList`: the case-insensitive name filter, the
  sort (pinned first, then newest last message first) and the `formatTime`
  buckets.
- `search_users.dfy`, module `SearchUsers`: search-term normalisation, the
  user filter, the set-like selection toggle, the create-group guard and the
  `formatLastSeen` buckets.
- `call_window.dfy`, module `CallWindow`: `formatDuration` (`mm:ss`) and a
  parser that reads it back.
- `text.dfy`, `lists.dfy`, `wrappers.dfy`: the JavaScript string and array
  operations the source relies on (`toLowerCase`, `includes`, `trim`,
  `replace`, `padStart`, `toString`, `filter`, `find`), and `Option`/`Result`.

Clock readings (`Date.now()`, `new Date()`) are parameters. A handler takes
one `now` in milliseconds and uses it for both the id suffix and the
timestamp. A relative-time label takes `diff = now - date`. React's state
setters are modelled as immediate writes. Each `await` is one sequential
step, answered by an oracle.

In three places the code does not do what one would expect of a call
manager. The model follows the code in each:
- One would expect a session whose negotiation fails to return to idle. In
  the code, after a successful media acquisition, a failed `createOffer` (or
  a rejected description) leaves the call marked active and keeps the stream
  and the connection.
- One would expect `onCallEnded` to fire once per completed call. In the
  code it fires on every `endCall`, including one made with no call.
- One would expect a second `startCall` during a call to be refused. In the
  code it replaces the slots without stopping the old tracks or closing the
  old connection. It also leaves `isMuted` as it was, so
  `isMuted == !audio.enabled` can stop holding (`CallSession.StartCall`
  states exactly when it still holds). No "call already active" guard exists
  in the code, and none is modelled.

## Model

| member | source | states |
|---|---|---|
| `WebRTC.Constraints` | src/hooks/useWebRTC.ts:27-30 | no contract; the object literal of useWebRTC.ts:27-30 (audio always, video at 1280x720 on a video call only); `CallSession.StartCall` and `CallSession.AnswerCall` state what the device answers to it |
| `WebRTC.AcquireStream` | src/hooks/useWebRTC.ts:32 | a granted request yields a fresh stream of fresh, distinct, enabled, live tracks of the granted kinds, in order |
| `WebRTC.FirstOfKind` | src/hooks/useWebRTC.ts:127 | finds a track of the kind if and only if the stream has one; the track found is of that kind and no earlier track is |
| `WebRTC.FirstOfKindIsFind` | src/hooks/useWebRTC.ts:127 | the first track of a kind is what `Lists.Find` returns with the kind test |
| `WebRTC.MediaStreamTrack.constructor` | src/hooks/useWebRTC.ts:32 | a track the device creates has its kind, is enabled and is live |
| `WebRTC.MediaStream.constructor` | src/hooks/useWebRTC.ts:32 | a granted stream holds the given tracks in `getTracks()` order |
| `WebRTC.FirstOfGrantedKind` | src/hooks/useWebRTC.ts:127 | a fresh stream has an audio (video) track exactly when that kind was granted |
| `WebRTC.RTCPeerConnection.constructor` | src/hooks/useWebRTC.ts:38 | the connection keeps the given ICE servers, with no tracks, no descriptions, no handler, and open |
| `WebRTC.RTCPeerConnection.AddTrack` | src/hooks/useWebRTC.ts:42 | appends the track to the attached tracks; the browser refuses a closed connection or a track already attached |
| `WebRTC.RTCPeerConnection.AddTracks` | src/hooks/useWebRTC.ts:41-43 | the `forEach` over the stream's tracks attaches all of them, after the ones already attached, in stream order |
| `WebRTC.Connect` | src/hooks/useWebRTC.ts:38-47 | a fresh open connection with the STUN configuration, every track of the stream attached once in order, no descriptions or negotiation steps, and `ontrack` registered |
| `WebRTC.RTCPeerConnection.SetTrackHandler` | src/hooks/useWebRTC.ts:45 | after `ontrack` is assigned the connection has a track handler |
| `WebRTC.RTCPeerConnection.Close` | src/hooks/useWebRTC.ts:110 | after `close()` the connection is closed |
| `WebRTC.RTCPeerConnection.Create` | src/hooks/useWebRTC.ts:55 | `createOffer`/`createAnswer` is logged as a step and yields a description of that type, or a negotiation failure |
| `WebRTC.RTCPeerConnection.SetLocalDescription` | src/hooks/useWebRTC.ts:56 | logs the step; commits the description exactly when it is accepted |
| `WebRTC.RTCPeerConnection.SetRemoteDescription` | src/hooks/useWebRTC.ts:90 | logs the step; commits the description exactly when it is accepted |
| `WebRTC.MediaStreamTrack.Stop` | src/hooks/useWebRTC.ts:105 | the track is ended |
| `WebRTC.StopAll` | src/hooks/useWebRTC.ts:105 | every track given is stopped and keeps its enabled bit |
| `WebRTC.CallSession.constructor` | src/hooks/useWebRTC.ts:9-16 | the session starts idle: all flags false, all three slots null, no notification yet |
| `WebRTC.CallSession.Setup` | src/hooks/useWebRTC.ts:33-47 | the writes after acquisition: stream stored; active, video flag and party set; `isMuted` kept; fresh connection holding every local track exactly once, in stream order; `ontrack` registered |
| `WebRTC.RTCPeerConnection.NegotiateOffer` | src/hooks/useWebRTC.ts:55-56 | the offer is created before it is set; a failed creation sets nothing; the offer is returned and becomes the local description exactly when the negotiator accepts it |
| `WebRTC.RTCPeerConnection.NegotiateAnswer` | src/hooks/useWebRTC.ts:90-92 | remote description, create answer, local description, in that order, each only after the previous step succeeded; the answer is returned and becomes the local description exactly when accepted |
| `WebRTC.CallSession.StartCall` | src/hooks/useWebRTC.ts:25-63 | a refused device changes no slot or flag and the error is returned; otherwise the state is as after setup whether or not negotiation fails; the offer is created, then committed as the local description and returned; nothing held before is stopped or closed; the flags mirror the new tracks exactly when the old `isMuted` was false or there is no audio track, and the video request matches the granted video |
| `WebRTC.CallSession.AnswerCall` | src/hooks/useWebRTC.ts:65-101 | same acquisition rules as `StartCall`; with an offer, the calls are made in the order remote description, create answer, local description, and the answer is returned; a rejected offer stops before an answer is created; without an offer, neither description is set |
| `WebRTC.CallSession.OnTrack` | src/hooks/useWebRTC.ts:45-47 | an open connection with the handler makes the event's first stream the remote stream; otherwise the remote slot is kept; the session invariant is preserved |
| `WebRTC.CallSession.EndCall` | src/hooks/useWebRTC.ts:103-123 | from any state: every held local track is stopped, the held connection is closed with its tracks, descriptions, negotiation log and handler intact, the three slots are null, all flags are reset; the callback fires once, after the resets, and sees the idle view |
| `WebRTC.CallSession.Dispose` | src/hooks/useWebRTC.ts:145-149 | unmounting tears down as `endCall` does (tracks stopped with their enabled bit kept, connection closed with everything else intact) and leaves a valid, synchronised idle session |
| `WebRTC.CallSession.ToggleMute` | src/hooks/useWebRTC.ts:125-133 | flips the first audio track only and sets `isMuted` to its negation; with no stream or no audio track nothing changes; preserves the session invariant and keeps each flag mirroring its track (`AudioInSync`, `VideoInSync`) |
| `WebRTC.CallSession.ToggleVideo` | src/hooks/useWebRTC.ts:135-143 | flips the first video track only and sets `isVideoEnabled` to it; on a voice-only stream nothing changes; preserves the session invariant and keeps each flag mirroring its track (`VideoInSync`, `AudioInSync`) |
| `WebRTC.MuteTwice` | src/hooks/useWebRTC.ts:125-133 | muting twice restores every track, and restores `isMuted` when it mirrored the first audio track (`AudioInSync`) |
| `WebRTC.VideoTwice` | src/hooks/useWebRTC.ts:135-143 | toggling video twice restores every track, and restores `isVideoEnabled` when it mirrored the first video track (`VideoInSync`) |
| `WebRTC.EndCallTwice` | src/hooks/useWebRTC.ts:103-123 | a second `endCall` leaves the same idle state and notifies again |
| `IndexPage.Truthy` | src/pages/Index.tsx:187 | no contract; the truthiness test `!selectedChat` negates: null and "" are false. Used in `Messenger.SendMessage`'s contract |
| `IndexPage.SetLastMessage` | src/pages/Index.tsx:200-206 | no contract; specified by `SetLastMessageSpec` |
| `IndexPage.TogglePin` | src/pages/Index.tsx:209-215 | no contract; specified by `TogglePinSpec` and `TogglePinTwice` |
| `IndexPage.RemoveChat` | src/pages/Index.tsx:218 | no contract; specified by `RemoveChatSpec` |
| `IndexPage.RemoveMessagesOf` | src/pages/Index.tsx:225 | no contract; specified by `ClearChatSpec` |
| `IndexPage.ClearChatMeta` | src/pages/Index.tsx:226-232 | no contract; specified by `ClearChatSpec` |
| `IndexPage.MessagesOf` | src/pages/Index.tsx:314-316 | no contract; specified by `MessagesOfSpec` |
| `IndexPage.Messenger.CurrentChatMessages` | src/pages/Index.tsx:314-316 | no contract; the selected chat's messages, specified by `MessagesOfSpec` |
| `IndexPage.FindDirectChat` | src/pages/Index.tsx:249-254 | no contract; specified by `FindDirectChatSpec` |
| `IndexPage.FindUser` | src/pages/Index.tsx:262 | finds nothing exactly when no user has the id; otherwise the first user in the list with that id |
| `IndexPage.StampedId` | src/pages/Index.tsx:190 | no contract; the prefix followed by the decimal clock reading, as in `msg-${Date.now()}` and `chat-${Date.now()}` |
| `IndexPage.UpdateWhere` | src/pages/Index.tsx:200-206 | same length; each chat with the id is transformed and every other chat is kept as it was |
| `IndexPage.SetLastMessageSpec` | src/pages/Index.tsx:200-206 | sending sets the last message of the selected chat only; chat count, ids, order and all other chats are unchanged |
| `IndexPage.TogglePinSpec` | src/pages/Index.tsx:209-215 | pinning flips `isPinned` of the matching chats and changes nothing else |
| `IndexPage.TogglePinTwice` | src/pages/Index.tsx:209-215 | pinning twice is the identity |
| `IndexPage.RemoveChatSpec` | src/pages/Index.tsx:217-218 | deleting keeps exactly the chats with another id, every copy of each, in their order |
| `IndexPage.ClearChatSpec` | src/pages/Index.tsx:224-233 | clearing drops exactly that chat's messages and keeps every copy of the rest in order; that chat loses its last message and gets unread 0; other chats are untouched |
| `IndexPage.MessagesOfSpec` | src/pages/Index.tsx:314-316 | the messages shown are exactly the selected chat's, every copy of each, in order; none when nothing is selected |
| `IndexPage.FindDirectChatSpec` | src/pages/Index.tsx:249-254 | the lookup finds the first direct chat containing both users, and finds nothing only when there is none |
| `IndexPage.NewMessage` | src/pages/Index.tsx:189-196 | no contract; the object literal of Index.tsx:189-196; its fields are stated by `Messenger.SendMessage` |
| `IndexPage.NewGroupChat` | src/pages/Index.tsx:236-244 | no contract; the object literal of Index.tsx:236-244; its fields are stated by `Messenger.CreateGroup` |
| `IndexPage.NewDirectChat` | src/pages/Index.tsx:265-274 | no contract; the object literal of Index.tsx:265-274; its fields are stated by `Messenger.StartDirectChat` |
| `IndexPage.Messenger.constructor` | src/pages/Index.tsx:149-154 | the page starts on `chat1`, with no dialogs and a zero call timer |
| `IndexPage.Messenger.SendMessage` | src/pages/Index.tsx:186-207 | nothing changes when no chat is selected (null or "") or the trimmed text is empty; otherwise exactly one message is appended at the end, carrying the selected chat, the current user, the trimmed text and the clock's timestamp, unread, and only the selected chat's last message changes |
| `IndexPage.Messenger.PinChat` | src/pages/Index.tsx:209-215 | the chat list becomes the pin-toggled list |
| `IndexPage.Messenger.DeleteChat` | src/pages/Index.tsx:217-222 | the chat is removed; the selection is cleared if and only if it was that chat |
| `IndexPage.Messenger.ClearChat` | src/pages/Index.tsx:224-233 | messages and chat summaries become the cleared lists |
| `IndexPage.Messenger.CreateGroup` | src/pages/Index.tsx:235-246 | exactly one group chat is prepended and the rest of the list is unchanged; it has the name, participants `[me] + ids`, no last message, unread 0 and is unpinned |
| `IndexPage.Messenger.CloseSearch` | src/pages/Index.tsx:363 | the search dialog's `onClose` hides the dialog |
| `IndexPage.Messenger.StartDirectChat` | src/pages/Index.tsx:248-279 | an existing direct chat with both users is selected and the chat list is unchanged; an unknown user changes nothing; otherwise one direct chat with both users is prepended and selected, with participants `[me, user]`, no last message, unread 0 and unpinned |
| `IndexPage.Messenger.Tick` | src/pages/Index.tsx:176-184 | the timer grows by exactly one per tick while the call is active, and stays put otherwise |
| `IndexPage.Messenger.OnCallEnded` | src/pages/Index.tsx:169-173 | ending a call closes both call dialogs and resets the timer to 0 |
| `IndexPage.CallTimer` | src/pages/Index.tsx:169-184 | after a reset, n ticks of an active call read n seconds |
| `ChatList.LastActivity` | src/components/ChatList.tsx:51-52 | no contract; the last message's timestamp, 0 without one. Used in `FilteredChatsOrder` |
| `ChatList.Compare` | src/components/ChatList.tsx:47-53 | no contract; specified by `CompareIsTotalPreorder` and `FilteredChatsOrder` |
| `ChatList.Matches` | src/components/ChatList.tsx:44-46 | no contract; the lower-cased name contains the lower-cased query. Used in `FilteredChatsContents` |
| `ChatList.FilteredChats` | src/components/ChatList.tsx:43-54 | no contract; specified by `FilteredChatsContents`, `EmptyQueryKeepsAll` and `FilteredChatsOrder` |
| `ChatList.FormatTime` | src/components/ChatList.tsx:56-68 | no contract; specified by `FormatTimeBuckets` |
| `ChatList.CompareIsTotalPreorder` | src/components/ChatList.tsx:47-53 | the comparator is reflexive, total and transitive, so it orders consistently |
| `ChatList.Insert` | src/components/ChatList.tsx:47-54 | insertion adds exactly one chat to the multiset |
| `ChatList.InsertSorted` | src/components/ChatList.tsx:47-54 | inserting into a sorted list keeps it sorted |
| `ChatList.Sort` | src/components/ChatList.tsx:47-54 | the sort returns a sorted permutation of its input |
| `ChatList.FilteredChatsContents` | src/components/ChatList.tsx:43-54 | the list shown is a permutation of the chats whose lower-cased name contains the lower-cased query, and is never longer than the input |
| `ChatList.EmptyQueryKeepsAll` | src/components/ChatList.tsx:44-46 | an empty query shows every chat |
| `ChatList.FilteredChatsOrder` | src/components/ChatList.tsx:47-53 | every pinned chat is above every unpinned one; with equal pin state, last-message time (0 when absent) never increases down the list |
| `ChatList.FormatTimeBuckets` | src/components/ChatList.tsx:56-68 | under a minute "только что"; then floor-minutes 1..59, floor-hours 1..23, floor-days 1..6; from 7 days on, and only then, the calendar date |
| `SearchUsers.SearchTerm` | src/components/SearchUsers.tsx:42 | the lower-cased query with only its first '@' removed |
| `SearchUsers.SearchTermSpec` | src/components/SearchUsers.tsx:42 | the term has no capital letters; "" and "@" both give the empty term |
| `SearchUsers.NameMatches` | src/components/SearchUsers.tsx:47-49 | no contract; the lower-cased username or display name contains the term. Used in `FilteredUsersSpec` |
| `SearchUsers.FilteredUsers` | src/components/SearchUsers.tsx:44-50 | no contract; specified by `FilteredUsersSpec` and `BlankQueryKeepsOthers` |
| `SearchUsers.FilteredUsersSpec` | src/components/SearchUsers.tsx:44-50 | a user is shown if and only if it is not the current user and its lower-cased username or display name contains the term; input order is kept |
| `SearchUsers.BlankQueryKeepsOthers` | src/components/SearchUsers.tsx:42-50 | a query of "" or "@" shows every user but the current one |
| `SearchUsers.ToggleSelection` | src/components/SearchUsers.tsx:52-58 | no contract; specified by `ToggleSelectionSpec` and `ToggleSelectionTwice` |
| `SearchUsers.ToggleSelectionSpec` | src/components/SearchUsers.tsx:52-58 | membership flips for that id only; an absent id is appended at the end; a present id is removed entirely and every copy of every other id is kept, in order; a duplicate-free selection stays duplicate-free |
| `SearchUsers.FilterNoDuplicates` | src/components/SearchUsers.tsx:55 | removing ids keeps a selection duplicate-free |
| `SearchUsers.ToggleSelectionTwice` | src/components/SearchUsers.tsx:52-58 | toggling an absent id twice restores the selection |
| `SearchUsers.CreateGroupRequest` | src/components/SearchUsers.tsx:60-62 | no contract; specified by `CreateGroupRequestSpec` |
| `SearchUsers.CreateGroupRequestSpec` | src/components/SearchUsers.tsx:60-65 | a group is requested if and only if the name has a non-blank character and the selection is non-empty; the request carries the trimmed name and the unchanged selection |
| `SearchUsers.SubmitGroup` | src/components/SearchUsers.tsx:60-65 | a failed guard changes nothing; otherwise the page prepends the group chat with the trimmed name and the selection, and the dialog closes |
| `SearchUsers.FormatLastSeen` | src/components/SearchUsers.tsx:67-77 | no contract; specified by `FormatLastSeenBuckets` |
| `SearchUsers.FormatLastSeenBuckets` | src/components/SearchUsers.tsx:67-77 | no date gives ''; under an hour the floor-minutes form, including negative minutes for dates in the future; then floor-hours 1..23; from a day on, and only then, the date |
| `CallWindow.Fields` | src/components/CallWindow.tsx:48-49 | the seconds field is below 60 and `mins * 60 + secs == seconds` |
| `CallWindow.Field` | src/components/CallWindow.tsx:50 | no contract; specified by `FieldDigits` |
| `CallWindow.FormatDuration` | src/components/CallWindow.tsx:47-51 | no contract; specified by `FormatDurationShape`, `FormatDurationFiveChars` and `FormatDurationRoundTrip` |
| `CallWindow.ParseDuration` | src/components/CallWindow.tsx:47-51 | no contract; the inverse the round trip is stated with (minutes before the first ':', seconds after it) |
| `CallWindow.FieldDigits` | src/components/CallWindow.tsx:50 | a padded field is at least two digits with no ':', exactly two below 100, and reads back as its number |
| `CallWindow.JoinParts` | src/components/CallWindow.tsx:50 | joining a field with no ':' to a second field by ':' puts the only ':' of the prefix right after the first field, with the second field after it |
| `CallWindow.ShapeParts` | src/components/CallWindow.tsx:50 | a digit field of two or more characters, ':' and a two-digit field make a string with ':' three from the end and the two fields before and after it |
| `CallWindow.FormatDurationShape` | src/components/CallWindow.tsx:47-51 | the output is the minutes field, ':', then a two-digit seconds field, and the fields read back as minutes and seconds |
| `CallWindow.FormatDurationFiveChars` | src/components/CallWindow.tsx:50 | below 6000 seconds the output has exactly 5 characters with ':' at index 2 |
| `CallWindow.ParseParts` | src/components/CallWindow.tsx:47-51 | a string made of two digit fields around its first ':' parses as the first field times 60 plus the second |
| `CallWindow.FormatDurationRoundTrip` | src/components/CallWindow.tsx:47-51 | parsing the rendering back gives the original number of seconds |
| `Text.UpperChar` | src/components/ChatList.tsx:45 | no contract; the inverse of the case mapping on the lower-case letters, used to state `LowerChar` |
| `Text.LowerChar` | src/components/ChatList.tsx:45 | the mapped character is never a capital; a capital becomes a different character that maps back to it (its own lower-case letter); any other character is kept |
| `Text.ToLower` | src/components/ChatList.tsx:45 | `toLowerCase` keeps the length, leaves no capital letter, turns each capital into its own lower-case letter, and keeps every other character |
| `Text.ToLowerIdempotent` | src/components/ChatList.tsx:45 | lower-casing a lower-cased string changes nothing |
| `ChatList.QueryCaseInsensitive` | src/components/ChatList.tsx:44-46 | the shown chats do not depend on the case of the query: a query and its lower-cased form show the same list |
| `Text.Contains` | src/components/ChatList.tsx:45 | no contract; specified by `ContainsIff` |
| `Text.ContainsIff` | src/components/ChatList.tsx:45 | `includes` holds exactly when the pattern occurs at some index |
| `Text.LeadingSpaces` | src/pages/Index.tsx:187 | the count of leading white-space characters: all of them are white space and the next one is not |
| `Text.TrimmedEnd` | src/pages/Index.tsx:187 | the end of a span once trailing white space is dropped: everything dropped is white space and the last kept character is not |
| `Text.Trim` | src/pages/Index.tsx:187 | `trim` gives the infix of the input that follows its leading white space, is followed only by white space, and neither starts nor ends with white space |
| `Text.TrimEmptyIff` | src/pages/Index.tsx:187 | the trimmed string is empty exactly when the input is all white space |
| `Text.IndexOf` | src/components/SearchUsers.tsx:42 | the index of the first occurrence of a character |
| `Text.IndexOfUnique` | src/components/SearchUsers.tsx:42 | a position holding the character with no earlier occurrence is the index `IndexOf` returns |
| `Text.RemoveFirst` | src/components/SearchUsers.tsx:42 | `replace('@', '')` leaves a string without the character unchanged and otherwise deletes exactly its first occurrence |
| `Text.NatToDecimal` | src/components/CallWindow.tsx:50 | no contract; specified by `NatToDecimalRoundTrip` |
| `Text.IntToDecimal` | src/components/ChatList.tsx:64 | no contract; a '-' before the digits of a negative number, as `${n}` renders an integer |
| `Text.DecimalValue` | src/components/CallWindow.tsx:50 | no contract; the value a digit string reads back as, used to state `NatToDecimalRoundTrip` |
| `Text.NatToDecimalRoundTrip` | src/components/CallWindow.tsx:50 | `toString` of a number gives at least one digit, at most two below 100, and reads back as the number |
| `Text.LeadingZero` | src/components/CallWindow.tsx:50 | the '0' that `padStart` adds does not change the value |
| `Text.PadStart` | src/components/CallWindow.tsx:50 | `padStart` reaches the target length, keeps the string as its suffix, and fills only with the pad character |
| `Lists.Filter` | src/pages/Index.tsx:218 | `filter` keeps exactly the elements that satisfy the test, never more than the input |
| `Lists.FilterCount` | src/pages/Index.tsx:218 | `filter` keeps every copy of an element that passes and none of one that fails |
| `Lists.FilterIsSubsequence` | src/pages/Index.tsx:218 | `filter` keeps the input order |
| `Lists.FilterAppend` | src/components/SearchUsers.tsx:55-56 | filtering a concatenation filters each part |
| `Lists.FilterSameTest` | src/components/ChatList.tsx:44-46 | filters by tests that agree on every element give the same list |
| `Lists.FilterKeepsAll` | src/components/SearchUsers.tsx:44-50 | a filter every element passes returns its input |
| `Lists.FilterFilter` | src/components/SearchUsers.tsx:44-50 | two filters in a row are one filter by the conjunction |
| `Lists.Find` | src/pages/Index.tsx:249-262 | `find` returns the first match, and nothing only when nothing matches |

## Left out

- Real WebRTC and media APIs are abstract. SDP contents, ICE gathering and the `onicecandidate` logging handler are not modelled. Nothing is signalled. So the fact that the offer of a video call carries both an audio and a video section is not stated.
- Concurrency is not modelled. Asynchronous steps run one after another. Two overlapping `startCall`/`answerCall` invocations do not interleave. React's batching of state updates is not modelled.
- `setInterval` and `setTimeout` are not modelled. The one-second interval is the `Messenger.Tick` method, and the 2-second auto-dismiss of the outgoing-call dialog is left out.
- The call wiring of the page is not modelled: `handleStartCall`, `handleAcceptCall`, `handleDeclineCall`, `handleCancelOutgoingCall`, and the callback plumbing from the session to `Messenger.OnCallEnded`. `onIncomingCall` is never invoked by the hook.
- `toLocaleDateString` (the 7-day branch of `formatTime` and the 24-hour branch of `formatLastSeen`) renders locale text and is not modelled: those results are `CalendarDate`/`SeenOnDate`.
- Text.LowerChar / Text.ToLower: map only ASCII, Latin-1 and Cyrillic (U+0400..U+042F) capitals to their lower-case letters; full Unicode case mapping (other scripts, length-changing mappings) is not modelled.
- ChatList.Sort: an insertion sort stands for the engine's stable sort. The lemmas fix the order up to ties and do not state stability.
- ChatList.FormatTimeBuckets: the "только что" bucket is stated in one direction only (under a minute gives that label).
- Rendering is not modelled: all JSX, ChatWindow, ProfilePanel, OutgoingCall, IncomingCall (audio playback), InstallPrompt and InstallBanner (`localStorage` and timers), and the PWA build configuration. The mock seed data is passed to the `Messenger` constructor.
- Numbers are treated as integers. Timestamps are integer milliseconds and `callDuration` is a natural number. JavaScript floating point, `NaN` and `-0` are not modelled.
- `new RTCPeerConnection(configuration)` (src/hooks/useWebRTC.ts:38) is taken never to throw. If it threw after the writes at lines 33-36, the call would stay marked active with the old or no connection; the model has no such path, so its session invariant `Valid()` does not cover it.
- `RTCPeerConnection.AddTrack`: the browser's refusal of a closed connection or a track already attached is a `requires` rather than a failure path. Both call sites add distinct fresh tracks to a fresh open connection, so the failure cannot arise in the modelled code.
- Failure reasons of `setLocalDescription`/`setRemoteDescription` are fixed strings in the model; the browser's error objects are not modelled.
