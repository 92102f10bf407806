# A verified model of a WhatsApp-style chat service

This project models a chat application with two halves:

- a Node/Express server backed by MongoDB and socket.io;
- a React client.

Users sign in by phone with a one-time code, set up a profile, and exchange one-to-one and group messages. They also share statuses that expire after a day, schedule messages for later, and place voice or video calls. Call signalling is relayed through the socket server.

The model covers the logic inside that service:

- **Server records**: users, one-time codes, chats, messages, statuses, calls and scheduled entries. Each is a datatype with its enumerations, defaults and limits.
- **Sign-in state machine**:
  - a fixed-window limiter on code requests per phone;
  - the store of codes, with expiry and an attempt counter;
  - finding or creating the user;
  - the rule for when a profile is complete.
- **Server routes** that read or change records:
  - sending, read receipts, reactions, scheduling, cancelling and the soft delete of messages;
  - creating, grouping, marking seen and deleting statuses;
  - finding or creating one-to-one chats, and creating and editing groups.
- **Socket gateway**:
  - the presence map from user to socket;
  - room fan-out that excludes the sender;
  - the call-signalling handlers and the call records they write.
- **Scheduler**: the job table, the fire step, and the recovery pass at start-up.
- **Client state**:
  - the call state machine;
  - the online set and the typing map;
  - the message and chat-list reducers;
  - unread counters;
  - the three route guards;
  - the sign-in page's code boxes and cooldown.
- **Client screens**: the rules behind the chat list, chat window, status viewer and composer, the scheduling dialog, the two profile forms, the avatar, and the voice recorder and call overlay.

How the code maps to Dafny:

- **Mutating code becomes classes.** Code that mutates in-memory maps, documents or component state is a `class`. It has a `Valid()` invariant, and each method's `ensures` gives the whole new state in terms of the old one.
- **Persisted collections are fields.** Each collection is a `seq` or `map` field of that class.
- **Outside effects are recorded as sequences.** Socket emissions and HTTP requests are appended to sequences, so that what goes out can be stated.
- **Expression code becomes functions and lemmas.** This covers the validators, label rules, formatters and reducers.
- **Time, identity and replies come from the caller.**
  - Time is an integer clock in milliseconds.
  - Every database id is a `nat`.
  - The reply of an outside call (a query, an HTTP request, a database save) is a parameter: `Common.ApiReply` for an HTTP reply, or a fault flag for a save.
  - `Common.ErrorText` models the client's `err.response?.data?.message || fallback`.
- **Timers are explicit.** A firing is its own method (`Tick`, `Fire`), and an armed timer is a flag or a counter.

Three behaviours of the code that a reader may not expect, which the model keeps as written:

- **Call duration.** Ending a call sets its status to ended but never writes `duration`; see Findings.
- **No re-check at fire time.** A firing job does not re-read the entry's status before sending it; see Findings.
- **Which entries can be cancelled.** The cancel route sets `cancelled` whatever the status, including `sent` and `failed`, and `Scheduler.Delivery.Cancel` does the same.

## Model

| member | source | states |
|---|---|---|
| CallModel.ParseCallType | server/models/Call.js:15-19 | only "voice" and "video" are accepted as a call type |
| CallModel.ParseCallStatus | server/models/Call.js:20-24 | only the four status names are accepted |
| CallModel.CallEnumsRoundTrip | server/models/Call.js:15-24 | the stored names and the enum validators are inverse to each other, both ways |
| CallModel.CreateCall | server/models/Call.js:3-37 | a call is created iff caller, receiver and a valid type are given; status defaults to missed, duration to 0, start and end unset |
| ChatModel.CreateChat | server/models/Chat.js:3-34 | isGroup defaults to false, the group name is trimmed and defaults to '', the group avatar is '', no last message, both timestamps now |
| ChatModel.WithLastMessage | server/models/Chat.js:28-33 | setting lastMessage stamps updatedAt and changes no other field |
| MessageModel.ParseMessageType | server/models/Message.js:19-23 | exactly the six type names are accepted, and an accepted name is the name of its type |
| MessageModel.MessageTypeRoundTrip | server/models/Message.js:19-23 | every message type reads back from its stored name |
| MessageModel.CreateMessage | server/models/Message.js:3-58 | a message is created iff sender and chat are given and any given type is valid; every omitted field takes its schema default |
| OtpModel.CreateOtp | server/models/Otp.js:4-27 | a record is created iff phone, hash and expiry are given; attempts start at 0 |
| OtpModel.CreatedRecordVerifies | server/models/Otp.js:29-38 | a record made from hashOtp(code) accepts code, and accepts another code only when the hash collides |
| ScheduledModel.ParseScheduledStatus | server/models/ScheduledMessage.js:23-27 | exactly pending, sent, failed and cancelled are accepted |
| ScheduledModel.ScheduledStatusRoundTrip | server/models/ScheduledMessage.js:23-27 | every status reads back from its stored name |
| ScheduledModel.CreateEntry | server/models/ScheduledMessage.js:3-30 | an entry is created iff sender, chat, non-empty content and a time are given; it starts pending |
| ScheduledModel.WithStatus | server/models/ScheduledMessage.js:23-29 | a write of a status the document does not hold in memory replaces the status, stamps updatedAt and changes nothing else |
| ScheduledModel.AssignStatus | server/routes/message.js:195-196 | assigning the status a freshly loaded entry already has leaves it as it was, updatedAt included; another status replaces it and stamps updatedAt, nothing else changing |
| ScheduledModel.AssignStatusTwice | server/routes/message.js:195-196 | assigning the same status a second time, at any later time, changes nothing |
| StatusModel.ParseStatusType | server/models/Status.js:10-14 | exactly text, image and video are accepted |
| StatusModel.StatusTypeRoundTrip | server/models/Status.js:10-14 | every status type reads back from its stored name |
| StatusModel.CreateStatus | server/models/Status.js:3-40 | a status is created iff an author and expiry are given and any given type is valid; omitted fields take their defaults (text, '', '', "#00a884", nobody has seen it) |
| UserModel.NewUser | server/models/User.js:3-52 | a new user has the trimmed phone, empty name and avatar, the stock about text, an incomplete profile, is offline, and satisfies the length limits |
| UserModel.SetName | server/models/User.js:23-28 | assigning a name stores it trimmed and changes nothing else |
| UserModel.FindByPhone | server/models/User.js:5-10 | the lookup finds a user with the phone, or none exists |
| UserModel.AppendKeepsPhonesUnique | server/models/User.js:5-10 | adding a user whose phone nobody has keeps phones unique |
| RateLimit.CeilSeconds | server/middleware/rateLimit.js:25 | the retry delay is the milliseconds left rounded up to whole seconds |
| RateLimit.Decide | server/middleware/rateLimit.js:15-38 | no window or an ended window opens a fresh one of 1; a full window refuses with the time left; otherwise the count goes up by one |
| RateLimit.DecideKeepsCount | server/middleware/rateLimit.js:5-36 | no window ever holds more than 5 requests |
| RateLimit.WithinWindowCap | server/middleware/rateLimit.js:17-33 | while the clock stays inside a window, no more requests get through than the window has left |
| RateLimit.AtMostFivePerWindow | server/middleware/rateLimit.js:5-38 | from a phone's first request, at most 5 requests up to the window's end are allowed |
| RateLimit.SixthIsRefused | server/middleware/rateLimit.js:19-30 | the sixth request at the window's last instant is refused, and one millisecond later a new window opens |
| RateLimit.Limiter.Request | server/middleware/rateLimit.js:8-39 | a missing or empty phone is refused with nothing changed; otherwise only that phone's window changes, as Decide says |
| RateLimit.Limiter.Cleanup | server/middleware/rateLimit.js:41-49 | the sweep deletes exactly the windows that ended before now and keeps the others unchanged |
| AuthRoutes.DropPhone | server/routes/auth.js:26 | deleting a phone's codes removes exactly the records for that phone |
| AuthRoutes.Newest | server/routes/auth.js:58-61 | the lookup finds a live code for the phone with the latest creation time, or there is no live code |
| AuthRoutes.MarkOnline | server/routes/auth.js:95-98 | logging in marks the user online at now and keeps the profile |
| AuthRoutes.ApplyProfile | server/routes/auth.js:174-184 | a truthy name replaces the name, trimmed; a given about or avatar replaces its field; the profile is complete iff it was, or the stored name has at least 2 characters |
| AuthRoutes.ReplaceKeepsUsersOk | server/models/User.js:5-37 | rewriting a valid user in place with the same id and phone keeps the collection consistent |
| AuthRoutes.AppendKeepsUsersOk | server/models/User.js:5-37 | appending a valid user with a fresh phone keeps the collection consistent |
| AuthRoutes.LoginUser | server/routes/auth.js:86-98 | the user with the trimmed phone is marked online, or a new one is created and marked online; isNewUser says which, and the collection stays consistent |
| AuthRoutes.CreatedOffline | server/routes/auth.js:86-92 | an unknown phone gets a new offline user with the trimmed phone appended, a known one leaves the users as they are, and the collection stays consistent |
| AuthRoutes.Auth.Issue | server/routes/auth.js:25-45 | every old code for the phone is deleted, one new code expiring in 5 minutes is stored, and a failure at each step gives a server error |
| AuthRoutes.Auth.SendOtp | server/routes/auth.js:17-46 | a missing phone or one shorter than 10 is refused with 400; otherwise the code is issued; users are untouched |
| AuthRoutes.Auth.SendOtpRoute | server/routes/auth.js:17-46 | the limiter runs first: a missing or empty phone gets 400 'Phone number is required' and touches nothing; otherwise the phone's window changes as Decide says, a full window gives 429 with the seconds left, and only then a phone shorter than 10 is refused or the code issued |
| AuthRoutes.Auth.ResendOtpRoute | server/routes/auth.js:117-140 | the limiter runs first: a missing or empty phone gets 400 and touches nothing; otherwise the window changes as Decide says, a full window gives 429, and an allowed request issues the code with no length check |
| AuthRoutes.Auth.ResendOtp | server/routes/auth.js:117-140 | only a missing phone is refused; there is no length check; otherwise the code is issued |
| AuthRoutes.Auth.VerifyCode | server/routes/auth.js:49-114 | missing fields give 400; a failing lookup gives 500 with nothing changed; no live code gives 400; a failing first write in a branch gives 500 with nothing changed; 5 failed attempts delete the phone's codes and refuse even the right code; a wrong code counts an attempt and reports what is left; the right code deletes the codes, after which a failing user lookup or save gives 500 over the dropped codes (and, for a failing save, the new offline user), else the user is logged in |
| AuthRoutes.Auth.UpdateProfile | server/routes/auth.js:172-191 | the user changes as ApplyProfile says when the result passes the length limits, and nothing changes otherwise; a complete profile never becomes incomplete |
| AuthRoutes.Auth.Search | server/routes/auth.js:148-169 | exactly the users that are not the requester, have a complete profile and match the query, in store order (a subsequence of the users) |
| RateLimit.Limiter.constructor | server/middleware/rateLimit.js:3 | no phone has a window |
| AuthRoutes.Auth.constructor | server/routes/auth.js:3-4 | no code and no user is stored, and the code hash is the given function |
| MessageModel.SoftDelete | server/routes/message.js:214-216 | a deleted message is flagged, shows the fixed notice and has no reactions; nothing else changes |
| MessageRoutes.BroadcastReaches | server/routes/message.js:221-226 | the k-th emission goes to the k-th room, with the same event |
| MessageRoutes.RecipientsMembers | server/routes/message.js:43-47 | the loop emits to a participant iff it is not the skipped user; with no skip, to every participant |
| MessageRoutes.EmitStep | server/routes/message.js:43-47 | one more participant adds one emission unless it is the skipped user |
| MessageRoutes.MarkReadOne | server/routes/message.js:73-79 | a message of the chat not yet read by me gains me at the end of readBy and becomes delivered; any other message is unchanged; readBy gains no duplicate |
| MessageRoutes.MarkReadAll | server/routes/message.js:73-79 | the update applies MarkReadOne to every message, in place |
| MessageRoutes.MarkReadAllEffect | server/routes/message.js:73-79 | after mark-read every message of the chat is read by me, other chats' messages and all ids are untouched, and no readBy has a duplicate |
| MessageRoutes.ToggleReactionEffect | server/routes/message.js:108-116 | after a toggle I have exactly the new reaction (none for an empty emoji) and the others' reactions keep their order |
| MessageRoutes.Emissions | server/routes/message.js:43-47 | the participant loop emits once to each recipient, in participant order |
| MessageRoutes.MessageApi.Send | server/routes/message.js:11-53 | 400 without a chat id or with neither content nor file; 500 when the store rejects the type; otherwise the message is stored with its defaults, becomes the chat's last message and goes to every other participant |
| MessageRoutes.MessageApi.MarkRead | server/routes/message.js:71-96 | the chat's messages change as MarkReadAll says; then the other participants hear messages-read, or a missing chat gives 500 |
| MessageRoutes.MessageApi.React | server/routes/message.js:99-136 | 404 for an unknown message; otherwise the reactions are toggled and every participant, the reactor included, hears the new list |
| MessageRoutes.MessageApi.Delete | server/routes/message.js:204-232 | 404 for an unknown message, 403 unless I sent it; otherwise it is soft-deleted and every participant hears message-deleted |
| MessageRoutes.SendReachesOthers | server/routes/message.js:42-47 | a sent message reaches exactly the participants other than the sender |
| Scheduler.MessageFromEntry | server/utils/scheduler.js:13-19 | the fired message is a text message from the entry's sender in its chat, with its content, read by the sender |
| Scheduler.FanOutReachesEveryone | server/utils/scheduler.js:37-40 | the new message goes to every participant, the sender included, in order |
| Scheduler.RecoverableIds | server/utils/scheduler.js:67-70 | the re-armed ids are exactly the pending entries due strictly after now |
| Scheduler.Rearm | server/utils/scheduler.js:72 | the arming pass over the stored entries: exactly the recoverable entries are added to the timers, each with its own document, and recorded as jobs; earlier timers stay |
| Scheduler.Delivery.Arm | server/utils/scheduler.js:9-61 | a job is recorded under the entry's id exactly when the timer library returned one |
| Scheduler.Delivery.Schedule | server/routes/message.js:139-168 | 400 when chat, content or time is missing, or the time is not in the future; 500 when the store fails; otherwise a pending entry is stored, armed and returned with 201 |
| Scheduler.Delivery.Cancel | server/routes/message.js:186-201 | 404 for an unknown entry, 403 for another user's; otherwise the status becomes cancelled whatever it was, an entry already cancelled staying exactly as stored, and the armed timer stays |
| Scheduler.Delivery.CancelDisarming | server/routes/message.js:186-201 | as Cancel, an entry already cancelled staying exactly as stored, and on success the timer and its job are also removed |
| Scheduler.Delivery.EmitToParticipants | server/utils/scheduler.js:37-40 | one new-message emission per participant is appended, in order |
| Scheduler.Delivery.StoreMessage | server/utils/scheduler.js:13-19 | the message is stored under a fresh id |
| Scheduler.Delivery.SaveStatus | server/utils/scheduler.js:27-52 | the status write replaces the stored status of the entry |
| Scheduler.Delivery.TryDeliver | server/utils/scheduler.js:11-48 | the message is created unless that throws; the chat points to it; the captured entry is saved as sent; and when nothing throws every participant and the sender are told |
| Scheduler.Delivery.Publish | server/utils/scheduler.js:26-46 | status sent is saved unless that save throws; then, unless delivery throws and provided the chat exists, new-message goes to every participant and scheduled-message-sent to the sender, and the outbox is otherwise unchanged |
| Scheduler.Delivery.Fire | server/utils/scheduler.js:10-57 | the fire never re-reads the status; a throw saves failed over whatever was stored; the job is dropped on either path unless the failed save throws too |
| Scheduler.Delivery.Restart | server/utils/scheduler.js:6 | a restart loses every timer and job and keeps the stored documents |
| Scheduler.Delivery.InitScheduler | server/utils/scheduler.js:65-77 | exactly the pending entries due strictly after now are armed, so from an empty timer table the armed ids are exactly the recoverable ones; a failing query arms nothing |
| Scheduler.CancelledEntryStillFires | server/utils/scheduler.js:10-28 | scheduling, cancelling and firing delivers the cancelled entry, and its status ends sent |
| Scheduler.CancelledEntryStaysCancelled | server/routes/message.js:195-196 | with the disarming cancel, no timer is left and the entry stays cancelled |
| Scheduler.Delivery.constructor | server/utils/scheduler.js:6 | no stored entry, no armed timer and nothing delivered |
| Common.SortDesc | server/routes/chat.js:55 | the result is ordered by the key, largest first |
| Common.SortDescPermutes | server/routes/chat.js:55 | sorting keeps exactly the elements it was given, with their multiplicities |
| Common.InsertDesc | client/src/context/ChatContext.jsx:77-79 | inserting into an ordered list keeps it ordered, one longer |
| Common.InsertDescPermutes | client/src/context/ChatContext.jsx:77-79 | inserting adds exactly the one new element |
| StatusRoutes.Live | server/routes/status.js:42-47 | the listing holds exactly the statuses that have not expired, each as often as stored, newest first |
| StatusRoutes.Authors | server/routes/status.js:50-59 | the keys are every author of the listing, each once |
| StatusRoutes.GroupOfMembers | server/routes/status.js:51-60 | a status is in exactly its author's group |
| StatusRoutes.GroupOfEmpty | server/routes/status.js:51-60 | an author with no status has an empty group |
| StatusRoutes.GroupOfNewestFirst | server/routes/status.js:47-60 | each group stays newest first |
| StatusRoutes.UnseenMeaning | server/routes/status.js:61-67 | hasUnseen holds iff the group is not mine and one of its statuses lacks me in seenBy |
| StatusRoutes.GroupStep | server/routes/status.js:51-68 | one more status adds to its author's group, its unseen flag and, if new, its author's key |
| StatusRoutes.GroupedStep | server/routes/status.js:51-68 | one loop iteration takes the grouped object of a prefix to that of one more status |
| StatusRoutes.NewAuthor | server/routes/status.js:53-59 | a new key starts with an empty group and nothing unseen |
| StatusRoutes.GroupByAuthor | server/routes/status.js:50-68 | the loop builds, for every author, the author's group and unseen flag, with keys in first-appearance order |
| StatusRoutes.ContactGroups | server/routes/status.js:73-77 | the contact groups are the other authors' groups, in key order |
| StatusRoutes.Others | server/routes/status.js:73-77 | the other authors are exactly the keys that are not me, in key order, and distinct keys stay distinct |
| StatusRoutes.ContactGroupsAt | server/routes/status.js:73-77 | the k-th contact group is the grouped entry of the k-th other author, one group per such author |
| StatusRoutes.MarkSeen | server/routes/status.js:92-99 | after marking I am among the viewers; if I already was, nothing changes, else one entry is appended |
| StatusRoutes.MarkSeenOnce | server/routes/status.js:92-99 | marking twice is marking once, and I never appear twice among the viewers |
| StatusRoutes.Find | server/routes/status.js:87 | the lookup finds the status with the id, or none has it |
| StatusRoutes.StatusApi.Create | server/routes/status.js:8-37 | 400 without a type or with neither content nor media; 500 for an unknown type or a failing store, with nothing stored and the id counter unchanged; otherwise stored expiring in 24 hours under the next id and broadcast to everyone (201) |
| StatusRoutes.StatusApi.List | server/routes/status.js:40-82 | my group, or an empty one, comes apart; then one group per other live author, each author exactly once and in order of first appearance among the newest-first live statuses, holding that author's live statuses and the unseen flag |
| StatusRoutes.StatusApi.MarkSeenRoute | server/routes/status.js:85-105 | 404 for an unknown status; otherwise I am added to seenBy once |
| StatusRoutes.StatusApi.Delete | server/routes/status.js:108-123 | 404 for an unknown status, 403 unless I posted it; otherwise exactly that status is removed |
| StatusRoutes.ContactCount | server/routes/status.js:72-77 | there is one contact group per author other than me |
| ChatRoutes.FindDirect | server/routes/chat.js:18-21 | the lookup finds the first chat the one-to-one query matches, or none matches |
| ChatRoutes.DirectMatchIsExactPair | server/routes/chat.js:18-21 | for two different users the query matches exactly the one-to-one chats between them |
| ChatRoutes.SelfAccessFindsAnotherUsersChat | server/routes/chat.js:18-21 | with userId equal to me, the query returns my chat with someone else |
| ChatRoutes.FindExactPair | server/routes/chat.js:18-21 | the exact lookup finds the first chat whose participants are exactly the two users |
| ChatRoutes.FindExactPairAgrees | server/routes/chat.js:18-21 | the exact lookup agrees with the query whenever the two users differ |
| ChatRoutes.ChatsOf | server/routes/chat.js:49-55 | my chats are exactly the chats I belong to, each as often as stored, most recently updated first |
| ChatRoutes.UpdateGroupEffect | server/routes/chat.js:108-114 | a truthy name replaces the group name, trimmed; removeUser is gone; addUser is present unless removed; nobody else joins or leaves; updatedAt is stamped when the name or the members change or someone is added, and an update that changes neither leaves the chat as it was |
| ChatRoutes.UpdateGroupNoChange | server/routes/chat.js:108-114 | renaming to the current name and removing a non-member leaves the chat, updatedAt included, exactly as it was |
| ChatRoutes.AddUserDuplicates | server/routes/chat.js:109 | adding a member who is already there duplicates the entry |
| ChatRoutes.ChatApi.Access | server/routes/chat.js:9-44 | 400 without a user id; the first chat the query matches comes back with 200; otherwise a new one-to-one chat is stored with 201 |
| ChatRoutes.ChatApi.AccessExact | server/routes/chat.js:9-44 | as Access but looking up exactly the two users, so the chat returned is always between them |
| ChatRoutes.ChatApi.List | server/routes/chat.js:47-66 | the chats I belong to, each as often as stored, most recently updated first |
| ChatRoutes.ChatApi.CreateGroup | server/routes/chat.js:69-96 | 400 without a name, a participant list or at least two entries; otherwise a group of the given participants followed by me, with me as admin (201) |
| ChatRoutes.ChatApi.UpdateGroupRoute | server/routes/chat.js:99-126 | 404 for an unknown chat or a non-group; otherwise the chat changes as UpdateGroup says, updatedAt moving only with a real change, and the admin is not checked |
| SocketHandler.RelayReachesExactlyOthers | server/socket/handler.js:47-55 | the relay never reaches the relaying socket, carries only the relayed message, and reaches exactly the rooms of the participants other than the sender |
| SocketHandler.AnswerCall | server/socket/handler.js:105-108 | answering sets answered with the start time over whatever status was there |
| SocketHandler.RejectCall | server/socket/handler.js:119 | rejecting sets rejected and nothing else |
| SocketHandler.EndCall | server/socket/handler.js:130-133 | ending sets ended with the end time and leaves the duration as it was |
| SocketHandler.CallStatusOverwrites | server/socket/handler.js:100-138 | the status writes check nothing about the prior status, and none touches the duration |
| SocketHandler.AnsweredAndEndedCallHasZeroDuration | server/socket/handler.js:126-138 | a call answered and then ended a minute later still has duration 0 |
| SocketHandler.EndCallWithDuration | server/models/Call.js:31-34 | the intended end write also stores the whole seconds since the call was answered, and 0 for a call never answered |
| SocketHandler.EndCallWithDurationExample | server/models/Call.js:31-34 | a call answered at 0 and ended at 60000 ms lasts 60 seconds |
| SocketHandler.Gateway.Connect | server/socket/handler.js:8 | a new connection is added and nothing else changes |
| SocketHandler.Gateway.Setup | server/socket/handler.js:12-30 | a falsy id changes nothing; otherwise the socket joins the user's room, becomes the user's socket, the user is stored online, the others hear user-online and the socket gets the online list |
| SocketHandler.Gateway.Register | server/socket/handler.js:15 | the map gets the user's socket; a new key goes to the end of the key order |
| SocketHandler.Gateway.JoinChat | server/socket/handler.js:33-35 | the socket joins the chat's room and nothing else changes |
| SocketHandler.Gateway.ToRoomExceptSelf | server/socket/handler.js:39-64 | one emission to the room's members minus the sending socket |
| SocketHandler.Gateway.TypingEvent | server/socket/handler.js:38-40 | typing is relayed to the chat room without the typist's socket |
| SocketHandler.Gateway.StopTypingEvent | server/socket/handler.js:42-44 | stop-typing is relayed likewise |
| SocketHandler.Gateway.ReadReceipt | server/socket/handler.js:58-60 | a read receipt becomes messages-read with the reader, to the room without the reader |
| SocketHandler.Gateway.MessageReaction | server/socket/handler.js:63-65 | the reaction data is relayed unchanged to the room without the reactor |
| SocketHandler.Gateway.NewMessage | server/socket/handler.js:47-55 | nothing without a chat or participant list; otherwise the relay reaches each participant other than the sender |
| SocketHandler.Gateway.CallUser | server/socket/handler.js:68-98 | an offline target gives call-unavailable to the caller and no call; otherwise a missed call is stored and the target hears incoming-call, with the call id when the store worked |
| SocketHandler.Gateway.CallAccepted | server/socket/handler.js:100-113 | the signal always reaches the caller; a known call becomes answered whatever it was |
| SocketHandler.Gateway.CallRejected | server/socket/handler.js:115-124 | relayed; a known call becomes rejected |
| SocketHandler.Gateway.CallEnded | server/socket/handler.js:126-138 | relayed; a known call becomes ended with its end time, and every duration stays 0 |
| SocketHandler.Gateway.IceCandidateEvent | server/socket/handler.js:140-142 | the candidate goes to the peer's room, tagged with this socket's user id if set up |
| SocketHandler.Gateway.StatusUpdate | server/socket/handler.js:145-147 | new-status goes to every other socket |
| SocketHandler.Gateway.Disconnect | server/socket/handler.js:150-175 | the socket leaves every room; the first user in map order still mapped to it is removed, stored offline and announced with user-offline; no other user's entry changes |
| SocketHandler.Gateway.LeaveAll | server/socket/handler.js:150 | the socket leaves every room and its user id goes with it |
| SocketHandler.Gateway.FirstUserOf | server/socket/handler.js:151-157 | the scan finds the first user in insertion order mapped to the socket, or there is none |
| SocketHandler.Gateway.OnlineSnapshot | server/socket/handler.js:178 | the snapshot has exactly the online users as keys, each with its socket |
| SocketHandler.RegistryPut | server/socket/handler.js:15 | Map.set keeps the keys in insertion order with no duplicate |
| SocketHandler.RegistryRemove | server/socket/handler.js:160 | Map.delete keeps the other keys in their order |
| SocketHandler.RemoveKeepsIndex | server/socket/handler.js:160 | deleting one position of a duplicate-free key list removes exactly that key |
| SocketHandler.Gateway.constructor | server/socket/handler.js:5 | no connection, no online user, no room, no call and nothing emitted |
| SocketContext.Listed | client/src/context/SocketContext.jsx:36-38 | the online set becomes exactly the ids received |
| SocketContext.Joined | client/src/context/SocketContext.jsx:40-42 | user-online adds that user and removes nobody |
| SocketContext.Left | client/src/context/SocketContext.jsx:44-50 | a bare id leaves the set and nothing else changes; an object payload changes nothing |
| SocketContext.LeftFixed | client/src/context/SocketContext.jsx:44-50 | the corrected handler removes the user the payload names, whatever its shape, and nobody else |
| SocketContext.Typed | client/src/context/SocketContext.jsx:52-54 | the chat's typist becomes the latest one; other chats are untouched |
| SocketContext.Untyped | client/src/context/SocketContext.jsx:56-62 | the chat's entry goes whoever it names; other chats are untouched |
| SocketContext.JoinedIdempotent | client/src/context/SocketContext.jsx:40-42 | a repeated user-online changes nothing |
| SocketContext.ObjectPayloadKeepsUserOnline | client/src/context/SocketContext.jsx:44-50 | a user announced offline with the gateway's object payload stays in the set |
| SocketContext.JoinThenLeaveFixed | client/src/context/SocketContext.jsx:40-50 | with the corrected handler, online then offline restores the set for either payload shape |
| SocketContext.LeftFixedAgreesOnIds | client/src/context/SocketContext.jsx:44-50 | the corrected handler behaves as the original on a bare id |
| SocketContext.TypedThenUntyped | client/src/context/SocketContext.jsx:52-62 | typing then stopping in a chat without an entry restores the map |
| SocketContext.SocketProvider.constructor | client/src/context/SocketContext.jsx:11-13 | no socket, nobody online, nobody typing |
| SocketContext.SocketProvider.UserChanged | client/src/context/SocketContext.jsx:15-67 | the previous socket is closed; a user gets a new, never-closed socket, and no user leaves none |
| SocketContext.SocketProvider.OnConnect | client/src/context/SocketContext.jsx:30-33 | each connect emits setup with the owner's id on the current socket |
| SocketContext.SocketProvider.OnOnlineUsers | client/src/context/SocketContext.jsx:36-38 | the online set becomes Listed of the ids |
| SocketContext.SocketProvider.OnUserOnline | client/src/context/SocketContext.jsx:40-42 | the online set becomes Joined |
| SocketContext.SocketProvider.OnUserOffline | client/src/context/SocketContext.jsx:44-50 | the online set becomes Left |
| SocketContext.SocketProvider.OnTyping | client/src/context/SocketContext.jsx:52-54 | the typing map becomes Typed |
| SocketContext.SocketProvider.OnStopTyping | client/src/context/SocketContext.jsx:56-62 | the typing map becomes Untyped |
| SocketContext.SocketProvider.EmitEvent | client/src/context/SocketContext.jsx:69-73 | one emission on the current socket, none without a socket |
| SocketContext.OfflineUserStillShown | server/socket/handler.js:169-172 | after user-online and the gateway's user-offline for the same user, the provider still lists them online |
| NotificationContext.Bump | client/src/context/NotificationContext.jsx:75-78 | the chat's count rises by one from 0 when absent, every other count stays, and the total rises by one |
| NotificationContext.UnkeyedIsZero | client/src/context/NotificationContext.jsx:77 | a chat with no key counts 0 |
| NotificationContext.BumpKeepsKeysUnique | client/src/context/NotificationContext.jsx:75-78 | bumping keeps every chat key once |
| NotificationContext.Cleared | client/src/context/NotificationContext.jsx:82-88 | the chat's key goes and every other count stays |
| NotificationContext.ClearedTotal | client/src/context/NotificationContext.jsx:82-93 | with unique keys, clearing takes exactly that chat's count off the total |
| NotificationContext.ClearedKeepsKeysUnique | client/src/context/NotificationContext.jsx:82-88 | clearing keeps every remaining key once |
| NotificationContext.NoticeBody | client/src/context/NotificationContext.jsx:67-69 | a text message shows its content, any other type "Sent a <type>" |
| NotificationContext.NoticeTitle | client/src/context/NotificationContext.jsx:66 | the sender's name, else "Someone"; never empty |
| NotificationContext.NotificationProvider.constructor | client/src/context/NotificationContext.jsx:8-10 | the permission falls back to "default"; no counts, total 0 |
| NotificationContext.NotificationProvider.RequestPermission | client/src/context/NotificationContext.jsx:35-40 | asked only when supported and still "default"; the answer becomes the permission |
| NotificationContext.NotificationProvider.NotifyMessage | client/src/context/NotificationContext.jsx:43-79 | a notice only when granted, always a beep, the chat's count and the total each up by one |
| NotificationContext.NotificationProvider.ClearUnread | client/src/context/NotificationContext.jsx:82-93 | the chat's key goes and the total drops by its count |
| AppRoutes.Protected | client/src/App.jsx:12-29 | spinner while loading, login for visitors, setup for incomplete profiles, home exactly for complete ones |
| AppRoutes.Setup | client/src/App.jsx:31-37 | nothing while loading, login for visitors, home for complete profiles, the form exactly for incomplete ones |
| AppRoutes.AuthOnly | client/src/App.jsx:39-45 | nothing while loading, home or setup for signed-in users, the login page exactly for visitors |
| AppRoutes.Visit | client/src/App.jsx:47-72 | every other path redirects home |
| AppRoutes.ExactlyOnePageRenders | client/src/App.jsx:12-72 | after loading, a page renders exactly for the viewer it belongs to, and every route either renders or redirects |
| AppRoutes.EveryPathSettles | client/src/App.jsx:12-72 | after loading, every path reaches the viewer's page in at most two redirects |
| AppRoutes.LoadingShowsNoPage | client/src/App.jsx:15-41 | while loading, no guarded route renders a page or redirects |
| CallContext.Start | client/src/context/CallContext.jsx:34-39 | the count restarts at 0 under a fresh running interval, and no interval is cleared |
| CallContext.Stop | client/src/context/CallContext.jsx:41-46 | the referenced interval, if any, is cleared and forgotten, the count kept; without one nothing changes |
| CallContext.Tick | client/src/context/CallContext.jsx:36-38 | one interval callback adds one second and changes nothing else |
| CallContext.StartClearing | client/src/context/CallContext.jsx:34-39 | the corrected start clears a running interval first, so a sound timer stays sound |
| CallContext.StartWhenStoppedIsSound | client/src/context/CallContext.jsx:34-39 | starting with no interval running leaves exactly one, advancing once per second |
| CallContext.StartOverRunningLeaks | client/src/context/CallContext.jsx:34-46 | starting over a running interval orphans it: after stopping nothing is referenced, yet it still ticks |
| CallContext.ClearingKeepsTimerSound | client/src/context/CallContext.jsx:34-46 | with the clearing start the timer runs one step per second while started and none once stopped |
| CallContext.MediaFor | client/src/context/CallContext.jsx:72-76 | the granted stream has an enabled audio track, and a video track exactly on a video call |
| CallContext.Cleaned | client/src/context/CallContext.jsx:49-67 | idle, every call field reset, peer and stream released, timer stopped at 0, and no interval left when the timer was sound |
| CallContext.CleanedIdempotent | client/src/context/CallContext.jsx:49-67 | a second cleanup changes nothing |
| CallContext.ToggledMute | client/src/context/CallContext.jsx:186-194 | the first audio track flips and the flag becomes its negation; without one nothing changes |
| CallContext.ToggledCamera | client/src/context/CallContext.jsx:197-205 | the first video track flips and the flag becomes its negation; without one nothing changes |
| CallContext.ToggleMuteTwice | client/src/context/CallContext.jsx:186-194 | muting twice restores the track and leaves the flag agreeing with it |
| CallContext.CallProvider.constructor | client/src/context/CallContext.jsx:17-31 | idle with every field empty and nothing emitted |
| CallContext.CallProvider.Cleanup | client/src/context/CallContext.jsx:49-67 | the state becomes Cleaned and nothing is emitted |
| CallContext.CallProvider.CallUser | client/src/context/CallContext.jsx:70-118 | with media, a socket and a user: calling the target and one call-user with the offer, type and caller info; otherwise cleanup and no emission |
| CallContext.CallProvider.AcceptCall | client/src/context/CallContext.jsx:121-167 | with media, a stored offer, a socket and a caller: call-accepted with the answer and call id, active, timer restarted; otherwise cleanup |
| CallContext.CallProvider.RejectCall | client/src/context/CallContext.jsx:170-175 | call-rejected to the remote user when there is a socket and one, then cleanup |
| CallContext.CallProvider.EndCall | client/src/context/CallContext.jsx:178-183 | call-ended to the remote user when there is a socket and one, then cleanup |
| CallContext.CallProvider.ToggleMute | client/src/context/CallContext.jsx:186-194 | the state becomes ToggledMute |
| CallContext.CallProvider.ToggleCamera | client/src/context/CallContext.jsx:197-205 | the state becomes ToggledCamera |
| CallContext.CallProvider.OnIncomingCall | client/src/context/CallContext.jsx:211-217 | incoming from the caller, with its type, signal and id, over whatever call was in progress |
| CallContext.CallProvider.OnCallAccepted | client/src/context/CallContext.jsx:219-225 | with a peer and the answer applied, active with the timer restarted; otherwise nothing changes |
| CallContext.CallProvider.OnCallOver | client/src/context/CallContext.jsx:227-248 | call-rejected, call-ended and call-unavailable each clean up |
| CallContext.CallProvider.OnIceCandidate | client/src/context/CallContext.jsx:235-243 | a present candidate goes to an existing peer, and nothing else changes |
| CallContext.CallProvider.OnLocalCandidate | client/src/context/CallContext.jsx:88-95 | a present local candidate is emitted to the other side when there is a socket |
| CallContext.CallProvider.OnInterval | client/src/context/CallContext.jsx:36-38 | a running interval's callback advances the timer by Tick |
| CallContext.AnswerDuringCallLeaksTimer | client/src/context/CallContext.jsx:121-217 | answering a second call during one, then hanging up, leaves an idle call whose timer still advances |
| ChatContext.AppendNew | client/src/context/ChatContext.jsx:120-123 | the message is then present: an id already listed leaves the list as it was, a new one goes last |
| ChatContext.AppendNewIdempotent | client/src/context/ChatContext.jsx:120-123 | receiving the same message twice is receiving it once |
| ChatContext.AppendNewKeepsIdsUnique | client/src/context/ChatContext.jsx:120-123 | the message list keeps every id once |
| ChatContext.Touch | client/src/context/ChatContext.jsx:74-77 | the chat with that id shows the message and the time; every other chat is unchanged |
| ChatContext.Bumped | client/src/context/ChatContext.jsx:73-79 | the list comes out newest activity first |
| ChatContext.BumpedEffect | client/src/context/ChatContext.jsx:73-79 | same length, newest first; the message's chat shows the message and the time, and every other chat is listed exactly when it was before |
| ChatContext.AddReader | client/src/context/ChatContext.jsx:151 | the reader joins readBy unless its id is already among the bare-id entries, and nothing else in the message changes |
| ChatContext.AddReaderKeepsReadersUnique | client/src/context/ChatContext.jsx:151 | over bare-id entries, a receipt keeps readBy listing each reader once |
| ChatContext.ReadAll | client/src/context/ChatContext.jsx:146-155 | every message gets the reader as AddReader says, and no message appears or goes |
| ChatContext.ReadAllIdempotent | client/src/context/ChatContext.jsx:146-155 | a repeated receipt changes nothing |
| ChatContext.Deleted | client/src/context/ChatContext.jsx:136-144 | only the message with that id becomes the deletion notice |
| ChatContext.Reacted | client/src/context/ChatContext.jsx:157-163 | only the message with that id takes the new reactions |
| ChatContext.UpdatesKeepIds | client/src/context/ChatContext.jsx:136-163 | reading, deleting and reacting keep the ids unique |
| ChatContext.AddChat | client/src/context/ChatContext.jsx:91-94 | a chat already listed leaves the list; a new one goes to the front |
| ChatContext.AddChatKeepsIdsUnique | client/src/context/ChatContext.jsx:91-94 | the chat list keeps every id once |
| ChatContext.ChatProvider.constructor | client/src/context/ChatContext.jsx:13-15 | no chats, nothing selected, no messages, nothing sent |
| ChatContext.ChatProvider.FetchChats | client/src/context/ChatContext.jsx:20-30 | without a user nothing; a reply replaces the list, a failure keeps it |
| ChatContext.ChatProvider.LoadMessages | client/src/context/ChatContext.jsx:33-46 | no id or a failed fetch changes nothing; otherwise the messages are replaced, the chat is marked read, and once that works the receipt goes out with the user's id |
| ChatContext.ChatProvider.SelectChat | client/src/context/ChatContext.jsx:49-57 | the chat is selected; a chat is joined and loaded, no chat clears the messages |
| ChatContext.ChatProvider.SetSelectedChat | client/src/context/ChatContext.jsx:190 | the raw setter selects without joining or loading |
| ChatContext.ChatProvider.SendMessage | client/src/context/ChatContext.jsx:60-85 | nothing without a selected chat; otherwise the post with its defaults, and a reply is appended and bumps the selected chat |
| ChatContext.ChatProvider.AccessChat | client/src/context/ChatContext.jsx:88-101 | the replied chat is listed at the front unless present, then selected: its room is joined, its messages loaded and read as selectChat does; a failure changes nothing |
| ChatContext.ChatProvider.CreateGroupChat | client/src/context/ChatContext.jsx:104-114 | the replied group goes to the front and is selected: its room is joined, its messages loaded and read as selectChat does; a failure changes nothing |
| ChatContext.ChatProvider.OnNewMessage | client/src/context/ChatContext.jsx:118-134 | a message of the selected chat joins once and is read with a receipt; every message bumps its chat |
| ChatContext.ChatProvider.OnMessageDeleted | client/src/context/ChatContext.jsx:136-144 | the messages become Deleted |
| ChatContext.ChatProvider.OnMessagesRead | client/src/context/ChatContext.jsx:146-155 | only a receipt for the selected chat changes the messages, as ReadAll says |
| ChatContext.ChatProvider.OnReaction | client/src/context/ChatContext.jsx:157-163 | the messages become Reacted |
| Common.ErrorText | client/src/pages/Login.jsx:36 | the server's non-empty message, else the fallback; never empty when the fallback is not |
| LoginPage.PhoneInput | client/src/pages/Login.jsx:119-124 | the digits and '+' of the first 15 characters typed, in order: all of them when the text fits, else a prefix of them with the rest coming from beyond the cut |
| LoginPage.PhoneInputIdempotent | client/src/pages/Login.jsx:119-124 | filtering what the box already holds changes nothing |
| LoginPage.FilledCode | client/src/pages/Login.jsx:53-54 | six filled boxes join to six digits |
| LoginPage.Chars | client/src/pages/Login.jsx:68 | one box per character of the code |
| LoginPage.ConcatChars | client/src/pages/Login.jsx:66-70 | splitting a pasted code into boxes and joining them gives it back |
| LoginPage.Pasted | client/src/pages/Login.jsx:66 | a digits-only prefix of the pasted digits, six exactly when there are six |
| LoginPage.LoginForm.constructor | client/src/pages/Login.jsx:6-11 | the phone step with empty boxes, no error, no cooldown |
| LoginPage.LoginForm.PhoneChanged | client/src/pages/Login.jsx:123 | the phone becomes PhoneInput of what was typed |
| LoginPage.ResendLabelReadsBack | client/src/pages/Login.jsx:166 | the label is "Resend OTP" exactly at 0; otherwise it reads "Resend in ", digits that parse back to the cooldown, then 's' |
| LoginPage.LoginForm.SendOtp | client/src/pages/Login.jsx:23-39 | a short phone is refused with no request; otherwise the code is requested, and once sent the OTP step opens with the cooldown at 30 |
| LoginPage.LoginForm.Verify | client/src/pages/Login.jsx:74-85 | the code is checked; a refusal shows its error and empties every box |
| LoginPage.LoginForm.OtpChanged | client/src/pages/Login.jsx:41-56 | anything but one digit or nothing is ignored; only that box changes, and filling the last empty box submits the code |
| LoginPage.LoginForm.Paste | client/src/pages/Login.jsx:64-72 | six pasted digits fill the boxes and are submitted; fewer do nothing |
| LoginPage.LoginForm.Resend | client/src/pages/Login.jsx:87-96 | ignored while cooling down; otherwise a new code is requested and the cooldown restarts at 30 |
| LoginPage.LoginForm.CooldownTick | client/src/pages/Login.jsx:16-21 | one second less while above 0 |
| LoginPage.LoginForm.ChangeNumber | client/src/pages/Login.jsx:170-180 | back to the phone step with empty boxes and no error |
| Sidebar.FirstOther | client/src/components/Sidebar/Sidebar.jsx:60 | the position of the first participant who is not the viewer, every one before being the viewer |
| Sidebar.OtherUser | client/src/components/Sidebar/Sidebar.jsx:58-61 | nobody for a group or a chat without participants; otherwise a participant who is not the viewer, and nobody only when all are the viewer |
| Sidebar.ChatName | client/src/components/Sidebar/Sidebar.jsx:63-67 | a group's stored name; otherwise the other person's name, else "Unknown", never empty |
| Sidebar.ChatAvatar | client/src/components/Sidebar/Sidebar.jsx:69-72 | a group's picture; otherwise the other person's, none without one |
| Sidebar.PreviewOf | client/src/components/Sidebar/Sidebar.jsx:74-83 | "No messages yet" exactly without a last message; nothing for a bare id; the deleted label before any type label; each file type its label; else the content |
| Sidebar.Badge | client/src/components/Sidebar/Sidebar.jsx:188-214 | no badge exactly at 0, "99+" above 99, else the count |
| Sidebar.OtherOnline | client/src/components/Sidebar/Sidebar.jsx:91-94 | exactly when the other person exists and is online; never for a group |
| Sidebar.PanelsShown | client/src/components/Sidebar/Sidebar.jsx:164-186 | people while searching with results; the chat list or its empty note on the chats tab with an empty box; never two at once |
| Sidebar.SidebarPanel.constructor | client/src/components/Sidebar/Sidebar.jsx:23-24 | an empty search and no results |
| Sidebar.SidebarPanel.SearchChanged | client/src/components/Sidebar/Sidebar.jsx:155 | the search text is taken and nothing else changes |
| Sidebar.SidebarPanel.SearchFired | client/src/components/Sidebar/Sidebar.jsx:28-42 | at least two trimmed characters query the server with the text as typed, a reply replacing the results; fewer clear them with no request |
| Sidebar.SidebarPanel.OpenChat | client/src/components/Sidebar/Sidebar.jsx:45-55 | the returned chat is set selected and its messages loaded, the search cleared, and no join-chat goes out; nothing is posted |
| Sidebar.SidebarPanel.OpenChatJoining | client/src/context/ChatContext.jsx:49-57 | the corrected open goes through selectChat, so the chat's room is joined first, then its messages loaded and read; nothing is posted |
| Sidebar.OpenListed | client/src/components/Sidebar/Sidebar.jsx:194-197 | a listed chat becomes selected and its messages loaded, with no join-chat among the new emissions; nothing is posted |
| Sidebar.OpenListedJoining | client/src/context/ChatContext.jsx:49-57 | the corrected click emits join-chat for that chat first, then loads and reads its messages; nothing is posted |
| ChatWindow.Names | client/src/components/ChatWindow/ChatWindow.jsx:82 | each participant's name, in order |
| ChatWindow.StatusOf | client/src/components/ChatWindow/ChatWindow.jsx:79-89 | typing exactly when someone types in the chat; a group's member names (nothing without participants); online exactly when the other person is; their last seen time when known; otherwise offline |
| ChatWindow.CallButtons | client/src/components/ChatWindow/ChatWindow.jsx:264-272 | exactly in a one-to-one chat with another person |
| ChatWindow.ReadByOthers | client/src/components/ChatWindow/ChatWindow.jsx:199-202 | exactly the readers who are not the viewer |
| ChatWindow.TicksOf | client/src/components/ChatWindow/ChatWindow.jsx:197-208 | only on the viewer's own messages: read exactly when another reader exists, else delivered exactly when delivered, else sent |
| ChatWindow.UploadEndpoint | client/src/components/ChatWindow/ChatWindow.jsx:122-123 | "voice" exactly for audio types, else "chat" |
| ChatWindow.UploadMessageType | client/src/components/ChatWindow/ChatWindow.jsx:130-133 | image, video or voice exactly by the MIME prefix, a document otherwise |
| ChatWindow.UploadEndpointMatchesType | client/src/components/ChatWindow/ChatWindow.jsx:122-135 | a file goes to the voice endpoint exactly when it becomes a voice message, and never a text or system one |
| ChatWindow.FileOf | client/src/components/ChatWindow/ChatWindow.jsx:211-229 | nothing for a deleted, file-less, text or system message; each file type its element at the server's address; a document captioned by its name or "Document" |
| ChatWindow.DeletedBubbles | client/src/components/ChatWindow/ChatWindow.jsx:320 | after a deletion event the deleted message's bubble shows the notice, every other bubble is unchanged, and no bubble appears or goes |
| ChatWindow.ActionsOf | client/src/components/ChatWindow/ChatWindow.jsx:340-351 | the reaction button exactly on live messages, delete exactly on the viewer's own live ones |
| ChatWindow.ToggledPicker | client/src/components/ChatWindow/ChatWindow.jsx:342 | opens the picker on the message unless it is open there, which closes it |
| ChatWindow.ToggledPickerTwice | client/src/components/ChatWindow/ChatWindow.jsx:342 | pressing the same button twice restores the picker |
| ChatWindow.DateSeparators | client/src/components/ChatWindow/ChatWindow.jsx:231-300 | a separator before exactly the first message and each whose label differs from the previous one |
| ChatWindow.ChatWindowState.constructor | client/src/components/ChatWindow/ChatWindow.jsx:38-48 | an empty box, every panel closed, nothing pending or sent |
| ChatWindow.ChatWindowState.SelectionChanged | client/src/components/ChatWindow/ChatWindow.jsx:56-61 | the selected chat's unread count is cleared and the total drops by it; permission, notices and beeps are untouched |
| ChatWindow.ChatWindowState.InputChanged | client/src/components/ChatWindow/ChatWindow.jsx:92-98 | the text is taken, typing goes out, and one stop-typing timeout stays armed for this chat |
| ChatWindow.ChatWindowState.TypingTimeout | client/src/components/ChatWindow/ChatWindow.jsx:95-97 | stop-typing goes out for the chat the timeout was armed for |
| ChatWindow.ChatWindowState.Send | client/src/components/ChatWindow/ChatWindow.jsx:101-108 | a blank box sends nothing and changes nothing; otherwise the box empties, the emoji picker closes, stop-typing goes out and the trimmed text is posted, a reply bumping its chat to the front |
| ChatWindow.ChatWindowState.KeyDown | client/src/components/ChatWindow/ChatWindow.jsx:110-115 | Enter without Shift sends exactly as Send does; any other key changes nothing |
| ChatWindow.ChatWindowState.Upload | client/src/components/ChatWindow/ChatWindow.jsx:118-139 | one upload to the file's endpoint; once uploaded an empty message of its type with the upload's URL, name and size, a reply appended and its chat bumped; the box, picker and recording are untouched |
| ChatWindow.ChatWindowState.EmojiPicked | client/src/components/ChatWindow/ChatWindow.jsx:168-171 | the emoji is appended to the box; the picker and recording are untouched |
| ChatWindow.ChatWindowState.TextOffered | client/src/components/ChatWindow/ChatWindow.jsx:174-177 | a smart reply or a transcription replaces the text; a transcription also ends recording |
| ChatWindow.ChatWindowState.RecordingCancelled | client/src/components/ChatWindow/ChatWindow.jsx:399 | recording ends and the box keeps its text |
| ChatWindow.ChatWindowState.StartRecording | client/src/components/ChatWindow/ChatWindow.jsx:414-421 | the microphone, offered only with a blank box, starts recording |
| ChatWindow.ChatWindowState.PickerToggled | client/src/components/ChatWindow/ChatWindow.jsx:342 | the picker becomes ToggledPicker; nothing else changes |
| ChatWindow.ChatWindowState.React | client/src/components/ChatWindow/ChatWindow.jsx:158-165 | one of the six emoji is sent; the picker closes only once the server accepts; the box and recording are untouched |
| ChatWindow.ChatWindowState.Delete | client/src/components/ChatWindow/ChatWindow.jsx:180-182 | a delete request for the viewer's own live message; nothing else changes |
| StatusViewer.Pct | client/src/components/Status/StatusViewer.jsx:26-27 | the bar's percentage stays within 0 and 100, and is full exactly from five seconds on |
| StatusViewer.BarWidth | client/src/components/Status/StatusViewer.jsx:85 | full before the current status, the progress on it, empty after |
| StatusViewer.BarsDescend | client/src/components/Status/StatusViewer.jsx:80-89 | with the progress in range, the bars never grow from left to right |
| StatusViewer.Next | client/src/components/Status/StatusViewer.jsx:44-50 | the next index exactly when there is one, else the viewer closes |
| StatusViewer.Prev | client/src/components/Status/StatusViewer.jsx:52-56 | one back, except on the first status |
| StatusViewer.PrevThenNext | client/src/components/Status/StatusViewer.jsx:44-56 | back then forward returns to the same status |
| StatusViewer.NextThenPrev | client/src/components/Status/StatusViewer.jsx:44-56 | forward then back returns to the same status |
| StatusViewer.BodyOf | client/src/components/Status/StatusViewer.jsx:117-133 | a text status on its colour; an image or video from the server, captioned by its content when it has one |
| StatusViewer.StatusViewerState.Visible | client/src/components/Status/StatusViewer.jsx:16-69 | something renders exactly when the group has statuses |
| StatusViewer.StatusViewerState.constructor | client/src/components/Status/StatusViewer.jsx:10-42 | opens on the first status with the progress at 0, marking it seen unless it is the viewer's own |
| StatusViewer.StatusViewerState.Arrive | client/src/components/Status/StatusViewer.jsx:21-42 | each new index restarts the progress and marks another person's status seen |
| StatusViewer.StatusViewerState.GoNext | client/src/components/Status/StatusViewer.jsx:44-50 | the next status, marked seen unless one's own, or closing on the last |
| StatusViewer.StatusViewerState.GoPrev | client/src/components/Status/StatusViewer.jsx:52-56 | the previous status; the first stays without a new mark |
| StatusViewer.StatusViewerState.Tick | client/src/components/Status/StatusViewer.jsx:25-34 | the bar follows the time; at five seconds the interval stops and the viewer advances, marking another's status seen, or closes |
| StatusViewer.StatusViewerState.ToggleSeenBy | client/src/components/Status/StatusViewer.jsx:100-104 | the seen-by list, offered on one's own status, flips |
| StatusViewer.StatusViewerState.Delete | client/src/components/Status/StatusViewer.jsx:58-67 | the current status is deleted; a group of one closes, a larger one advances with the bar restarted, closing on the last |
| CreateStatus.MediaTypeOf | client/src/components/Status/CreateStatus.jsx:27 | a video exactly for video MIME types, an image otherwise, never text |
| CreateStatus.FirstColourIsDefault | client/src/components/Status/CreateStatus.jsx:6-16 | twelve colours, the first being the initial and the server's default background |
| CreateStatus.CreateStatusForm.CanSubmit | client/src/components/Status/CreateStatus.jsx:35-36 | on the text tab exactly with non-blank text, on the media tab exactly with a file |
| CreateStatus.CreateStatusForm.constructor | client/src/components/Status/CreateStatus.jsx:14-20 | the text tab, empty text, the first colour, no file |
| CreateStatus.CreateStatusForm.TabChosen | client/src/components/Status/CreateStatus.jsx:71-77 | only the tab changes |
| CreateStatus.CreateStatusForm.ContentChanged | client/src/components/Status/CreateStatus.jsx:96-127 | the text, cut at 500 characters on the text tab and uncut in the caption |
| CreateStatus.CreateStatusForm.ColourPicked | client/src/components/Status/CreateStatus.jsx:103-108 | one of the twelve colours becomes the background |
| CreateStatus.CreateStatusForm.MediaSelected | client/src/components/Status/CreateStatus.jsx:22-32 | no file changes nothing; a file is kept with its type |
| CreateStatus.CreateStatusForm.Submit | client/src/components/Status/CreateStatus.jsx:34-62 | nothing when disabled; a chosen file is uploaded first and a failed upload ends there; then one status with the trimmed content, text on its colour or the file's type on black, of a type the schema accepts; the dialog closes once created |
| ScheduleModal.ScheduleForm.constructor | client/src/components/Scheduling/ScheduleModal.jsx:7-12 | the open chat's dialog with empty fields, no notice and nothing posted |
| ScheduleModal.ScheduleForm.ContentChanged | client/src/components/Scheduling/ScheduleModal.jsx:74 | only the text changes |
| ScheduleModal.ScheduleForm.TimeChanged | client/src/components/Scheduling/ScheduleModal.jsx:82 | only the chosen time changes |
| ScheduleModal.ScheduleForm.Submit | client/src/components/Scheduling/ScheduleModal.jsx:19-41 | blank text or no time is refused with no request; otherwise the trimmed text is posted for this chat, a success shows its notice, empties both fields and arms the close, a failure shows the server's message or the fallback |
| ScheduleModal.SubmitTwice | client/src/components/Scheduling/ScheduleModal.jsx:19-41 | after a success a second press posts nothing and asks for the fields |
| ProfileSetup.Capped | client/src/pages/ProfileSetup.jsx:98-111 | a prefix of what was typed, no longer than the box's limit, the whole text when it fits |
| ProfileSetup.PaddedNameLeavesProfileIncomplete | client/src/pages/ProfileSetup.jsx:38-41 | " a" passes the form's check, yet the server's trimmed name leaves the profile incomplete |
| ProfileSetup.TrimmedNameCompletesProfile | server/routes/auth.js:177-184 | a name that keeps two characters once trimmed passes the form's check and completes the profile under its trimmed name |
| ProfileSetup.DisplayAvatar | client/src/pages/ProfileSetup.jsx:52 | the local preview first, else the saved photo on the server, else none exactly when both are empty |
| ProfileSetup.Remaining | client/src/pages/ProfileSetup.jsx:113 | the characters left of the 140, between 0 and 140 for text within the limit |
| ProfileSetup.ProfileSetupForm.constructor | client/src/pages/ProfileSetup.jsx:7-12 | the user's fields, the about text falling back to the stock one |
| ProfileSetup.ProfileSetupForm.NameChanged | client/src/pages/ProfileSetup.jsx:98-99 | the name becomes the capped text and nothing else changes |
| ProfileSetup.ProfileSetupForm.AboutChanged | client/src/pages/ProfileSetup.jsx:110-111 | the about text becomes the capped text and nothing else changes |
| ProfileSetup.ProfileSetupForm.AvatarChosen | client/src/pages/ProfileSetup.jsx:14-34 | the file is previewed and uploaded; only a success replaces the photo, a failure shows its error |
| ProfileSetup.ProfileSetupForm.Submit | client/src/pages/ProfileSetup.jsx:36-50 | a short name is refused with no request; otherwise the three fields are sent and a failure shows the server's message or the fallback |
| ProfileEdit.PhoneLabel | client/src/components/Profile/ProfileEdit.jsx:105 | never empty: the user's own stored number, else "N/A" |
| ProfileEdit.FallbackName | client/src/components/Profile/ProfileEdit.jsx:69 | the name, else "U"; never empty |
| ProfileEdit.ProfilePanel.constructor | client/src/components/Profile/ProfileEdit.jsx:9-14 | the user's fields, the about text falling back to empty |
| ProfileEdit.ProfilePanel.NameChanged | client/src/components/Profile/ProfileEdit.jsx:87-88 | the name becomes the capped text |
| ProfileEdit.ProfilePanel.AboutChanged | client/src/components/Profile/ProfileEdit.jsx:97-98 | the about text becomes the capped text |
| ProfileEdit.ProfilePanel.AvatarChosen | client/src/components/Profile/ProfileEdit.jsx:16-34 | the file is previewed and uploaded; only a success replaces the photo |
| ProfileEdit.ProfilePanel.Save | client/src/components/Profile/ProfileEdit.jsx:36-50 | the first-run form's name check; a success announces itself and arms the close, a failure shows a fixed text |
| Avatar.HeadsOfSplit | client/src/components/Common/Avatar.jsx:4-7 | the first characters of the space-separated pieces are exactly the word starts |
| Avatar.NoWordStartsIffSpaces | client/src/components/Common/Avatar.jsx:4-7 | no word start exactly when the text is all spaces |
| Avatar.InsideWord | client/src/components/Common/Avatar.jsx:4-7 | inside a word no further word starts |
| Avatar.Initials | client/src/components/Common/Avatar.jsx:2-10 | "?" without a name; otherwise at most two characters, the first two piece heads upper-cased |
| Avatar.Take2 | client/src/components/Common/Avatar.jsx:8 | the first two characters, or all of fewer |
| Avatar.TwoWordInitials | client/src/components/Common/Avatar.jsx:2-10 | a two-word name gives its words' first letters, upper-cased |
| Avatar.BlankNameHasNoInitials | client/src/components/Common/Avatar.jsx:2-10 | a non-empty name gives no initials exactly when it is all spaces |
| Avatar.SizeClassDeterminesSize | client/src/components/Common/Avatar.jsx:13-14 | two named sizes that give the same non-empty class are the same size |
| Avatar.Src | client/src/components/Common/Avatar.jsx:22 | a full URL kept, a server path behind the server's origin; always a URL |
| Avatar.SrcIdempotent | client/src/components/Common/Avatar.jsx:22 | resolving twice is resolving once |
| Avatar.FontSize | client/src/components/Common/Avatar.jsx:29 | 40% of the size, at least 12 |
| Avatar.Render | client/src/components/Common/Avatar.jsx:17-36 | the photo exactly when there is one, else the initials; the dot exactly when online |
| VoiceToText.FormatTimer | client/src/components/AI/VoiceToText.jsx:57-61 | at least five characters with the colon third from the end |
| VoiceToText.TwoDigitsAtMost | client/src/components/AI/VoiceToText.jsx:59 | seconds below 60 need at most two digits |
| VoiceToText.TimerReadsBack | client/src/components/AI/VoiceToText.jsx:57-61 | the text reads back: seconds below 60 after the colon, minutes before it padded but never cut, together the seconds shown |
| VoiceToText.TimerInjective | client/src/components/AI/VoiceToText.jsx:57-61 | different durations never show the same text |
| VoiceToText.VoiceRecorder.constructor | client/src/components/AI/VoiceToText.jsx:13-43 | with the microphone, recording with no chunks and the timer at 0; without it no recorder and onCancel once |
| VoiceToText.VoiceRecorder.DataAvailable | client/src/components/AI/VoiceToText.jsx:30-34 | only a chunk with data is kept |
| VoiceToText.VoiceRecorder.Tick | client/src/components/AI/VoiceToText.jsx:45-49 | the timer adds one second |
| VoiceToText.VoiceRecorder.Send | client/src/components/AI/VoiceToText.jsx:63-89 | nothing without a recorder; a recording recorder stops, its chunks are sent once, and the text or "" is handed back |
| VoiceToText.VoiceRecorder.Cancel | client/src/components/AI/VoiceToText.jsx:91-98 | the timer and recorder stop without sending, and onCancel runs once |
| VoiceToText.VoiceRecorder.Unmount | client/src/components/AI/VoiceToText.jsx:15-20 | as cancelling, without onCancel |
| VoiceToText.SendTwiceThenCancel | client/src/components/AI/VoiceToText.jsx:63-98 | send, send and cancel give one upload of non-empty chunks, one transcription and one cancel |
| ActiveCall.RemoteName | client/src/components/Call/ActiveCall.jsx:70 | the remote name, else "Unknown"; never empty |
| ActiveCall.Render | client/src/components/Call/ActiveCall.jsx:35-92 | shown exactly while calling or active; "Calling..." or the timer; the camera button exactly on video calls, the avatar exactly on voice calls |
| ActiveCall.ActiveStatusShowsDuration | client/src/components/Call/ActiveCall.jsx:37-72 | once active, the status line reads back as the call's seconds |

## Left out

- Transport and I/O: the HTTP layer, socket.io delivery, MongoDB queries, `populate` and TTL indexes are not modelled as such. Collections are sequences or maps, each socket emission is a recorded delivery, and each request's reply is a parameter. Handlers run one at a time on one sequential trace of events; interleaving of `await`s is not modelled.
- Hashing and tokens: sha-256 is an uninterpreted deterministic function passed in as a parameter. JWT signing, `protect` and the tokens themselves are left out.
- Code generation and delivery: `server/utils/otpProvider.js` is not part of this model. It holds the random code and the SMS or console delivery, so the generated code and whether delivery succeeded are parameters.
- The OpenAI features are not part of this model: `server/routes/ai.js`, SmartReply and ChatSummary are wrappers over a foreign service. The voice recorder's transcription is the reply it hands back.
- Uploads: `server/routes/upload.js` is multer and file-system plumbing. An upload is its outcome, a URL or a failure.
- Wiring and thin wrappers: `server/index.js`, the start-up code and index migration, is not part of this model. Neither are AuthContext and StatusContext, which hold HTTP and localStorage calls only. The signed-in user and their loading flag are parameters of the route guards.
- Layout-only screens: Home, EmptyState and StatusSidebar are left out; they render without rules of their own. IncomingCall is left out too: it shows only in the incoming state, which the call state machine covers.
- Register.jsx is not part of this model. No route leads to it, and it calls a `register` function that the auth provider does not offer.
- Read-only routes: `GET /message/:chatId`, `GET /message/scheduled/:chatId` and `GET /auth/me` are not modelled. They are single queries with sorting and population and carry no rule of their own. The chat list and status list routes, which do carry rules, are modelled.
- Browser and media interfaces are left out: WebRTC peers, tracks and ICE candidates, `getUserMedia`, the Web Audio beep and browser notifications. Each is an effect reduced to a flag: a peer exists, a track exists, a stream is held. `MediaRecorder` is its state and the sizes of its data chunks.
- Stopping an inactive `MediaRecorder` fires no stop event, following the MediaRecorder interface. The stop handler's work is done in the same step as the stop.
- Timers: `setTimeout`/`setInterval` are an armed flag or counter together with an explicit firing method. The search debounce (300 ms), the typing timeout (2 s) and the close delays are modelled that way, not as clock time.
- Dates and locale: `toLocaleString`, `toLocaleTimeString`, `getDateLabel`, the chat list's time column and the last-seen text are not modelled. Date separators compare the labels, which are given per message. The scheduling dialog's `datetime-local` to ISO conversion and its formatted minimum are left out.
- Floating point: the status viewer's progress percentage and the avatar's font size are `real`s, not IEEE doubles. The document size in KB with `toFixed` is not modelled.
- Strings are sequences of characters, so JavaScript's UTF-16 lengths are not modelled. `maxLength` is modelled as truncation of what was typed.
- Text.Upper: upper-cases ASCII letters only; JavaScript's full Unicode case mapping is not modelled.
- The waveform bars of the voice recorder (`Math.random` heights) and the icon glyphs in front of the chat list's preview labels are left out.
- Focus, scrolling, drag state, hover state of the pickers and the loading spinners are not modelled; they change no data.
- `onEvent`/`offEvent` listener registration in the socket provider is left out. Each handler is a method that the event invokes directly.
- MessageRoutes.MessageApi.Send, MessageRoutes.MessageApi.React, MessageRoutes.MessageApi.Delete: one `dbOk` flag stands for a store failure before the first write. A store call that throws after the write (the `lastMessage` update, `populate`, or the chat lookup) would give 500 over a changed store. Only the missing-chat case of that kind is modelled.
- StatusRoutes.StatusApi.Create: one `dbOk` flag fails before `Status.create`. A `populate` that throws after the create would give 500 with the status stored and no broadcast; that case is not modelled.
- ChatRoutes.ChatApi.Access, ChatRoutes.ChatApi.AccessExact, ChatRoutes.ChatApi.CreateGroup, ChatRoutes.ChatApi.UpdateGroupRoute: one `dbOk` flag fails before the write. A re-read or `populate` that throws after `Chat.create` or `save` would give 500 over a changed store; that case is not modelled.
- ChatContext.AddReader, ChatContext.AddReaderKeepsReadersUnique, ChatContext.ReadAll, ChatContext.ChatProvider.OnMessagesRead: the client's `readBy` entries are modelled as bare ids. Messages loaded through `GET /message/:chatId` carry populated `{_id, name}` entries (server/routes/message.js:60), and `includes` with an id never matches one of those. So in the code, a reader who had already read a loaded message is appended again and listed twice, while the model leaves that message as it was; the uniqueness these members state holds only for bare-id entries. The ticks shown are the same either way, since they accept both shapes.
- AuthRoutes.Auth.Search: the `$regex` match on name or phone with the `i` flag is the caller-given predicate `query`. Regular-expression matching and case folding are not modelled.
- Sidebar.SidebarPanel.SearchFired: the search text goes into the URL's query string unencoded, as the code does. URL parsing on the server side is part of the HTTP layer and not modelled.
- Mongoose validation details beyond those the model states are left out: schema casting, index creation, the `sparse` unique index's storage. Uniqueness of phone numbers is stated as an invariant of the user store.

## Findings

| source | as written | input that shows it | evidently intended | confidence | as-written member | corrected member |
|---|---|---|---|---|---|---|
| server/utils/scheduler.js:10-28 | cancelling sets the status to cancelled, but the armed timer stays, and firing never re-reads the status, so the message is still sent and the entry ends `sent` | schedule an entry, cancel it, then let its timer fire | a cancelled entry never fires and stays cancelled | not executed | Scheduler.CancelledEntryStillFires | Scheduler.Delivery.CancelDisarming, Scheduler.CancelledEntryStaysCancelled |
| server/socket/handler.js:126-138 | ending a call stamps `endedAt` and status `ended` but never writes `duration`, which keeps its default 0 | accept at 0 ms, end at 60000 ms | duration is the seconds between `startedAt` and `endedAt` | not executed | SocketHandler.AnsweredAndEndedCallHasZeroDuration | SocketHandler.EndCallWithDuration, SocketHandler.EndCallWithDurationExample |
| client/src/context/SocketContext.jsx:44-50 | `user-offline` deletes the received payload from the set of ids, but the server sends an object `{userId, lastSeen}`, so the id is never removed | another user comes online, then the server's `{userId, lastSeen}` payload for them arrives | the payload's `userId` leaves the online set | not executed | SocketContext.ObjectPayloadKeepsUserOnline, SocketContext.OfflineUserStillShown | SocketContext.LeftFixed, SocketContext.JoinThenLeaveFixed |
| server/routes/chat.js:18-21 | the one-to-one lookup matches two participants containing both ids, so when the requested user is the requester, any of the requester's one-to-one chats matches | a user asks for a chat with themselves while their only chat is with another user | the chat whose participants are exactly the two users | not executed | ChatRoutes.SelfAccessFindsAnotherUsersChat | ChatRoutes.FindExactPairAgrees, ChatRoutes.ChatApi.AccessExact |
| client/src/context/CallContext.jsx:34-46 | starting the timer overwrites the interval handle without clearing a running one, so the old interval keeps ticking after hang-up | answer a second incoming call while one is active, then hang up | at most one interval runs, and none after cleanup | not executed | CallContext.StartOverRunningLeaks, CallContext.AnswerDuringCallLeaksTimer | CallContext.StartClearing, CallContext.ClearingKeepsTimerSound |
| client/src/components/Sidebar/Sidebar.jsx:45-55 | opening a chat from search or from the list sets the selected chat directly and never emits `join-chat`, so the room's typing and read events do not reach that client | open any chat from the list | opening a chat joins its room | not executed | Sidebar.SidebarPanel.OpenChat, Sidebar.OpenListed | Sidebar.SidebarPanel.OpenChatJoining, Sidebar.OpenListedJoining |
| client/src/pages/ProfileSetup.jsx:38 | the name check counts the untrimmed length, but the server trims before its own two-character rule, so the save succeeds and the profile stays incomplete | the name " a" | the form accepts exactly the names the server completes the profile with | not executed | ProfileSetup.PaddedNameLeavesProfileIncomplete | ProfileSetup.TrimmedNameCompletesProfile |
