# Real-time collaboration tool: a verified model of its core

This project models the logic of a real-time collaboration tool that holds state: a Node
server with rooms and document, project and user stores, and the list reducers of its
React client.

On the server it models four things:

- **The realtime room coordinator** of `server/index.js`. It keeps a map from socket to
  session (`connectedUsers`) and a map from room to the set of user ids in it
  (`collaborationRooms`). Its six socket handlers (join-room, document-change,
  cursor-move, chat-message, leave-room, disconnect) update those maps and emit events to
  sockets. Each handler is stated as a pure transition on a `Registry` value that also
  returns its emits. The `Realtime.Coordinator` class performs the same updates in place
  and is proved to agree with the transitions.
- **The in-memory REST stores** of `server/routes/`. Documents have owner and
  collaborator checks and a version counter. Projects have membership rules and a list
  kept in insertion order. Users are looked up, updated and searched, and the password is
  always stripped. Each handler is a method on a store class, and its 400, 403, 404 and
  success outcomes are stated in full.
- **The rules the Mongoose schemas carry** in `server/models/`. These are the permission
  predicates, the collaborator and team upserts and removals, the bounded version
  history, the content statistics of the pre-save hook, task-based progress, and the
  `duration` and `isOverdue` virtuals.
- **The pure helpers of the analytics service**: the timeframe offsets, the role
  histogram, the completion rate and the recent-activity window.

On the client it models the reducers behind the components:

- presence, cursors, chat and the edit debounce of the collaborative editor;
- the task manager's add, status change, filter and counts;
- the notification centre's read, delete, filter and time labels;
- the file upload's validation and accumulation;
- the help page's section toggle and search;
- the chat page's send guard and contact search.

The main properties proved:

- every room set stays non-empty and duplicate-free across any run of handlers;
- who receives which event from each handler;
- that leave-room followed by disconnect emits user-left twice;
- that the editor never appends a chat message the server relays. The server's
  chat payload has no `roomId`, and the editor accepts only messages whose `roomId` is
  its document id.

Clocks (`new Date()`, `Date.now()`), fresh ids (`uuidv4()`) and random draws are
parameters. Truthiness of request fields is modelled where the source tests it: an
absent field is `None`, and `Truthy` means present and non-empty.

## Model

| member | source | states |
|---|---|---|
| Realtime.JoinSocket | server/index.js:53 | `socket.join`: the room's sockets gain the joiner and no other room changes |
| Realtime.LeaveSocket | server/index.js:115 | `socket.leave`: the room's sockets lose the leaver, other rooms are unchanged, and an empty room is dropped |
| Realtime.LeaveAllSockets | server/index.js:132 | before the disconnect handler runs, the closing socket is in no room and every other membership is kept |
| Realtime.JoinRecordsMembership | server/index.js:50-60 | join-room records the session and adds the user id to the room's set, creating the set when absent. The set grows by one exactly when the id was new, and other rooms are untouched |
| Realtime.RepeatedJoinKeepsRooms | server/index.js:55-59 | a join with a user id already in the room, from any socket, leaves every room set, and so its size, unchanged |
| Realtime.JoinDeliveries | server/index.js:63-67 | only the joiner receives room-participants, which includes its own id. Every other socket of the room receives user-joined, and no one else receives anything |
| Realtime.RelayTargets | server/index.js:73-109 | document-updated and cursor-updated reach the payload room's sockets except the sender. chat-message reaches all of them. None of the three changes state |
| Realtime.LeaveUnknownRoom | server/index.js:112-126 | leave-room on an unknown room changes neither map but still emits user-left to the other sockets of that room |
| Realtime.LeaveRemovesUser | server/index.js:117-123 | leave-room removes the user id from that room only, and deletes the room exactly when no other id remains |
| Realtime.LeaveThenDisconnectRepeatsUserLeft | server/index.js:112-150 | leave-room keeps the `connectedUsers` entry, so a later disconnect removes the user again and every other socket of the room receives user-left twice |
| Realtime.DisconnectWithoutSession | server/index.js:133-150 | disconnect of a socket with no session changes neither map and emits nothing |
| Realtime.DisconnectLeavesRecordedRoomOnly | server/index.js:133-150 | disconnect removes the session and the user id from the recorded room only. A room the socket joined earlier keeps the id |
| Realtime.DisconnectTwice | server/index.js:132-154 | a second disconnect of the same socket changes nothing and emits nothing |
| Realtime.SharedUserIdLostOnDisconnect | server/index.js:138-144 | room sets are keyed by user id: when two sockets of one user share a room and one disconnects, the id leaves the set although the other socket remains |
| Realtime.StepKeepsInv | server/index.js:117-144 | every handler keeps every room set non-empty and duplicate-free |
| Realtime.RunKeepsInv | server/index.js:43-155 | after any sequence of handled requests, every room set is still non-empty and duplicate-free |
| Realtime.Coordinator.constructor | server/index.js:43-44 | the coordinator starts with empty maps |
| Realtime.Coordinator.JoinRoom | server/index.js:50-70 | the in-place join performs the join-room transition and returns its emits |
| Realtime.Coordinator.DocumentChange | server/index.js:73-83 | returns the document-change relay's emits |
| Realtime.Coordinator.CursorMove | server/index.js:86-96 | returns the cursor-move relay's emits |
| Realtime.Coordinator.ChatMessage | server/index.js:99-109 | returns the chat-message broadcast's emits |
| Realtime.Coordinator.LeaveRoom | server/index.js:112-129 | the in-place leave performs the leave-room transition, keeps the invariant and returns its emits |
| Realtime.Coordinator.Disconnect | server/index.js:132-154 | the in-place disconnect performs the disconnect transition, keeps the invariant and returns its emits |
| Realtime.Coordinator.RemoveFromRoom | server/index.js:117-123 | the block shared by leave and disconnect removes the user id and deletes an emptied room |
| DocumentRoutes.OwnerCanEdit | server/routes/documents.js:42 | the owner is listed as a collaborator at creation and is never removed, so every owner passes the collaborator check |
| DocumentRoutes.HistoryOf | server/routes/documents.js:200-205 | the history reports the stored version counter, last editor and times |
| DocumentRoutes.DocumentStore.constructor | server/routes/documents.js:6 | the store starts as an empty map |
| DocumentRoutes.DocumentStore.Get | server/routes/documents.js:9-18 | 404 for an unknown id, otherwise the stored document |
| DocumentRoutes.DocumentStore.Create | server/routes/documents.js:26-54 | 400 without name, projectId or ownerId. Otherwise it stores a document with version 1, collaborators [ownerId], lastEditedBy ownerId, content defaulting to '' and type to 'text' |
| DocumentRoutes.DocumentStore.Update | server/routes/documents.js:62-86 | 404, then 403 for a non-collaborator. Otherwise the content is replaced, the version advances by exactly one, lastEditedBy is set, and no other document changes |
| DocumentRoutes.DocumentStore.Delete | server/routes/documents.js:94-111 | only the owner may delete, and exactly that key is removed |
| DocumentRoutes.DocumentStore.AddCollaborator | server/routes/documents.js:119-146 | 403 for a non-owner and 400 for an existing collaborator, so the list stays duplicate-free. Otherwise exactly one entry is appended |
| DocumentRoutes.DocumentStore.RemoveCollaborator | server/routes/documents.js:154-181 | owner only, and the owner cannot be removed, so the owner stays a collaborator |
| DocumentRoutes.DocumentStore.History | server/routes/documents.js:189-207 | 404 for an unknown id. Otherwise currentVersion equals the document's version |
| DocumentRoutes.DocumentStore.Collaborate | server/routes/documents.js:215-239 | 403 for a non-collaborator. Otherwise a snapshot is returned and nothing changes |
| ProjectRoutes.InitialMembers | server/routes/projects.js:61-68 | the owner comes first with role 'owner', then the supplied members in order with a falsy role replaced by 'member' |
| ProjectRoutes.WithoutMemberDropsExactlyUser | server/routes/projects.js:188 | removal drops every entry of the user, keeps every other entry, and changes nothing for an absent user |
| ProjectRoutes.WithoutMemberKeepsOrder | server/routes/projects.js:188 | removal keeps the remaining entries in their relative order |
| ProjectRoutes.ProjectStore.ListForUser | server/routes/projects.js:9-23 | 400 without a user id. Otherwise exactly the projects the user owns or belongs to, as the insertion-ordered values filtered in order |
| ProjectRoutes.ProjectStore.constructor | server/routes/projects.js:6 | the store starts as an empty map with an empty insertion order |
| ProjectRoutes.ProjectStore.Get | server/routes/projects.js:31-40 | 404 for an unknown id, otherwise the stored project |
| ProjectRoutes.ProjectStore.Create | server/routes/projects.js:48-81 | 400 without name or ownerId. Otherwise the new project, with the owner first among its members and empty `documents` and `tasks`, is stored, returned and appended to the insertion order |
| ProjectRoutes.ProjectStore.Update | server/routes/projects.js:89-109 | 404 first. Only truthy name and description and a supplied members list overwrite, updatedAt is refreshed, and every other field and project is unchanged |
| ProjectRoutes.ProjectStore.Delete | server/routes/projects.js:117-134 | 403 for a non-owner. Otherwise only that project is removed, from the map and from the order |
| ProjectRoutes.ProjectStore.AddMember | server/routes/projects.js:142-170 | 400 for a user already listed. Otherwise exactly one entry is appended, with the role defaulting to 'member' |
| ProjectRoutes.ProjectStore.RemoveMember | server/routes/projects.js:178-194 | never fails for a known project. Every entry of the user is dropped |
| UserRoutes.Public | server/routes/users.js:33 | the stripped user has no password field and keeps every other field |
| UserRoutes.SetIfTruthy | server/routes/users.js:53-55 | a truthy value overwrites the field, anything else leaves the user unchanged |
| UserRoutes.UserStore.List | server/routes/users.js:9-16 | exactly the stored users, each without its password, the i-th being the i-th inserted |
| UserRoutes.UserStore.constructor | server/routes/users.js:6 | the store starts as an empty map with an empty insertion order |
| UserRoutes.UserStore.Get | server/routes/users.js:24-34 | 404 for an unknown id, otherwise the user without its password |
| UserRoutes.Applied | server/routes/users.js:53-57 | truthy username, email and avatar overwrite, updatedAt is always refreshed, every other field is kept, and a searchable user stays searchable |
| UserRoutes.UserStore.Update | server/routes/users.js:42-63 | 404 leaves the map unchanged. Otherwise only that user changes, to `Applied` of its old fields, and no password is returned |
| UserRoutes.UserStore.Search | server/routes/users.js:71-84 | exactly the users whose lower-cased username or email contains the lower-cased query, without passwords, as the insertion-ordered values filtered in order |
| Roster.Lookup | server/models/Document.js:287-289 | the first entry of the user, or none exactly when the user has no entry |
| Roster.LookupUnique | server/models/Document.js:317-319 | with one entry per user, the entry found is the user's only one |
| Roster.UpsertEntries | server/models/Document.js:286-301 | the upsert gives the user an entry with the new role and permissions and keeps other users' entries. The list grows exactly when the user was new, and no user gets two entries |
| Roster.WithoutUserEntries | server/models/Document.js:307-310 | removal drops every entry of the user, keeps the others in order, and keeps users distinct |
| Roster.RemoveAfterUpsert | server/models/Project.js:283-286 | removing a user just upserted leaves no entry of that user |
| Numbers.CeilDiv | server/models/Project.js:240 | `Math.ceil(d / k)`: the least integer whose multiple of k reaches d |
| Numbers.RoundPercent | server/models/Project.js:255 | `Math.round(100 c / t)`: the nearest integer with halves rounded up, within 0..100 when 0 <= c <= t |
| Numbers.RoundPercentAll | server/services/analyticsService.js:53 | all tasks complete is 100 percent |
| DocumentSchema.ReadingTime | server/models/Document.js:279 | the least number of whole minutes at 200 words a minute that covers the words |
| DocumentSchema.Recount | server/models/Document.js:274-279 | the word count is the number of whitespace-separated runs, the character count is the length, the line count is the number of newlines plus one, and the reading time is as above |
| DocumentSchema.HasUserPermission | server/models/Document.js:315-328 | the owner has every permission and a non-collaborator none. Role 'owner' has everything, 'editor' everything but 'delete', and other roles exactly their listed permissions |
| DocumentSchema.EditorPermissions | server/models/Document.js:325-327 | an editor holds 'delete' exactly when its entry lists it |
| DocumentSchema.NextVersionsCap | server/models/Document.js:335-344 | the new version is last, and a list within the cap stays within it. At the cap the oldest entry goes out |
| DocumentSchema.NextVersionsAscending | server/models/Document.js:332-341 | version numbers stay strictly increasing |
| DocumentSchema.DocumentRecord.constructor | server/models/Document.js:171-174 | a new document starts at version 1 with empty lists |
| DocumentSchema.DocumentRecord.PreSave | server/models/Document.js:273-283 | the counts are recomputed exactly when the content was modified |
| DocumentSchema.DocumentRecord.AddCollaborator | server/models/Document.js:286-304 | an upsert with role defaulting to 'viewer' that keeps one entry per user |
| DocumentSchema.DocumentRecord.RemoveCollaborator | server/models/Document.js:307-312 | the filtered list, users still distinct |
| DocumentSchema.DocumentRecord.CreateVersion | server/models/Document.js:331-347 | currentVersion advances by one and the new version is pushed after shifting at the cap, keeping numbers ascending. A string `changes` is stored trimmed by the schema's trim setter (Document.js:51) |
| DocumentSchema.DocumentRecord.AddComment | server/models/Document.js:350-358 | exactly one comment is appended, its content trimmed by the schema's trim setter (Document.js:12) |
| DocumentSchema.DocumentRecord.LogActivity | server/models/Document.js:361-373 | exactly one activity is appended, carrying the metadata argument or `{}` when it is omitted, and lastModified and lastModifiedBy are set |
| ProjectSchema.CompletedTasks | server/models/Project.js:252 | exactly the tasks with status 'completed' |
| ProjectSchema.Duration | server/models/Project.js:237-241 | 0 without a start date. Otherwise the days from start to end rounded up, where the end is completedDate, else dueDate, else now |
| ProjectSchema.OverdueCases | server/models/Project.js:244-246 | overdue exactly when a due date is set and passed and the status is not 'completed'. Once overdue, a project stays overdue as `now` advances, and a completed project is never overdue |
| ProjectSchema.OverdueDuration | server/models/Project.js:237-246 | for an overdue project without a completion date, `duration` is measured to the due date: it stops growing with `now` and is at most the whole days elapsed from the start to `now` |
| ProjectSchema.HasUserPermission | server/models/Project.js:289-297 | only `team` is consulted, so a non-member has no permission even as owner. Role 'owner' has everything, 'manager' everything but 'admin', and others their list |
| ProjectSchema.ManagerPermissions | server/models/Project.js:293-296 | a manager holds 'admin' exactly when its entry lists it |
| ProjectSchema.ProjectRecord.constructor | server/models/Project.js:145-150 | a new project starts with no team, no tasks and progress 0 |
| ProjectSchema.ProjectRecord.PreSave | server/models/Project.js:249-261 | with tasks, it sets the totals and a progress of round(100 completed / total), within 0..100. Without tasks, the totals and progress are kept |
| ProjectSchema.ProjectRecord.AddTeamMember | server/models/Project.js:264-280 | an upsert with role defaulting to 'member' that keeps one entry per user |
| ProjectSchema.ProjectRecord.RemoveTeamMember | server/models/Project.js:283-286 | the filtered team, users still distinct |
| ProjectSchema.ProjectRecord.LogActivity | server/models/Project.js:300-310 | exactly one activity is appended, carrying the metadata argument or `{}` when it is omitted, and lastActivity is set |
| Analytics.LookbackDays | server/services/analyticsService.js:273-283 | 7, 30, 90 or 365 days for '7d', '30d', '90d' or '1y', and 30 for anything else |
| Analytics.StartDate | server/services/analyticsService.js:271-285 | that many whole days before now |
| Analytics.RoleCountAbsent | server/services/analyticsService.js:322-328 | a role no member has gets no count |
| Analytics.HistogramStep | server/services/analyticsService.js:324-326 | one iteration of the `forEach` keeps the histogram exact |
| Analytics.RoleDistribution | server/services/analyticsService.js:322-328 | keys only for roles present, each mapped to its number of members, with counts summing to the team size |
| Analytics.TaskSummary | server/services/analyticsService.js:50-53 | pending = total - completed. The rate is 0 for no tasks, otherwise round(100 completed / total), and 100 when all are complete |
| Analytics.RecentActivity | server/services/analyticsService.js:67 | the last min(10, n) entries, most recent first |
| CollaborativeEditor.OnDocumentUpdated | client/src/components/CollaborativeEditor.tsx:56-60 | the content is replaced exactly when the update is for this document and from another user |
| CollaborativeEditor.OnUserJoined | client/src/components/CollaborativeEditor.tsx:64-66 | the name is appended without deduplication |
| CollaborativeEditor.OnUserLeft | client/src/components/CollaborativeEditor.tsx:68-72 | every occurrence of the name is removed and the rest is kept |
| CollaborativeEditor.CursorUpdatedPlacesOne | client/src/components/CollaborativeEditor.tsx:75-90 | another user's update leaves exactly one cursor for that user, placed last, and keeps other users' cursors. One's own update changes nothing |
| CollaborativeEditor.OnChat | client/src/components/CollaborativeEditor.tsx:93-105 | a message is appended exactly when its roomId is this document's id |
| CollaborativeEditor.NoEventAppendsChat | client/src/components/CollaborativeEditor.tsx:93-95 | no event the server emits adds to the chat list |
| CollaborativeEditor.RelayedChatNeverAppended | client/src/components/CollaborativeEditor.tsx:94 | across any run of the server's handlers, the events a socket receives never append a chat message, because the server's payload has no roomId |
| CollaborativeEditor.SendChat | client/src/components/CollaborativeEditor.tsx:146-152 | the trimmed text is sent and the input cleared exactly when it is non-empty and a socket exists |
| CollaborativeEditor.Advance | client/src/components/CollaborativeEditor.tsx:128-130 | a due timer fires once and sends its content. Otherwise nothing changes |
| CollaborativeEditor.BurstKeepsLast | client/src/components/CollaborativeEditor.tsx:123-130 | each edit of a burst cancels the pending timer, so only the last edit's timer remains |
| CollaborativeEditor.BurstSendsOnlyLatest | client/src/components/CollaborativeEditor.tsx:123-130 | after a burst and a wait past its delay, exactly one update is sent, with the latest content |
| CollaborativeEditor.FeedConcat | client/src/components/CollaborativeEditor.tsx:119-131 | feeding inputs in two parts is feeding them at once |
| CollaborativeEditor.Debouncer.constructor | client/src/components/CollaborativeEditor.tsx:49 | no timer is pending and nothing has been sent |
| CollaborativeEditor.Debouncer.Elapse | client/src/components/CollaborativeEditor.tsx:128-130 | the timer slot fires as `Advance` specifies |
| CollaborativeEditor.Debouncer.ContentChange | client/src/components/CollaborativeEditor.tsx:119-131 | clearing and re-arming the timer slot is the debounce step |
| TaskManager.ParseTags | client/src/components/TaskManager.tsx:115-118 | every tag is non-empty, comma-free and trimmed |
| TaskManager.ParseTagsConcat | client/src/components/TaskManager.tsx:115-118 | tags are read piece by piece in order |
| TaskManager.ParseTagsSingle | client/src/components/TaskManager.tsx:115-118 | a comma-free entry is one trimmed tag, or none when blank |
| TaskManager.AddTask | client/src/components/TaskManager.tsx:103-131 | nothing happens unless the trimmed title is non-empty. Otherwise a 'todo' task is prepended, so the list grows by one, and the form is reset and closed |
| TaskManager.StatusChange | client/src/components/TaskManager.tsx:134-140 | only the status of tasks with the id changes. Length, order and all other fields are kept |
| TaskManager.StatusChangeIdempotent | client/src/components/TaskManager.tsx:134-140 | setting a status twice is setting it once |
| TaskManager.Toggled | client/src/components/TaskManager.tsx:387-390 | 'completed' becomes 'todo', and any other status becomes 'completed' |
| TaskManager.ToggleTwice | client/src/components/TaskManager.tsx:387-390 | two clicks restore 'todo' and 'completed' only |
| TaskManager.FilteredTasks | client/src/components/TaskManager.tsx:142-150 | exactly the tasks with the chosen status whose title, description or assignee contains the query, ignoring case |
| TaskManager.FilteredTasksOrder | client/src/components/TaskManager.tsx:142-150 | the filter keeps order, and 'all' with an empty query keeps every task |
| TaskManager.StatusCountsSum | client/src/components/TaskManager.tsx:152-154 | the four status counts sum to the number of tasks |
| Elapsed.FormatTimestamp | client/src/components/NotificationCenter.tsx:103-115 | "Just now" under a minute, then floored minutes, hours and days, and the date from a week on |
| Elapsed.FormatTime | client/src/pages/Chat.tsx:179-190 | the same buckets with no date fallback: days from one day on |
| Elapsed.FormatTimeAgrees | client/src/pages/Chat.tsx:179-190 | the two labels agree under a week. From a week on, the chat keeps counting days where the notifications show the date |
| NotificationCenter.MarkAsRead | client/src/components/NotificationCenter.tsx:117-125 | only notifications with the id become read, and nothing else changes |
| NotificationCenter.MarkAllAsRead | client/src/components/NotificationCenter.tsx:127-134 | every notification becomes read and nothing else changes |
| NotificationCenter.MarkAllAsReadSettles | client/src/components/NotificationCenter.tsx:127-147 | marking everything read is idempotent and makes the unread count 0 |
| NotificationCenter.MarkAsReadUnread | client/src/components/NotificationCenter.tsx:117-145 | marking one read removes exactly that id from the unread view, keeping the order |
| NotificationCenter.Delete | client/src/components/NotificationCenter.tsx:136-140 | every notification with the id goes and the others stay |
| NotificationCenter.DeleteKeepsOrder | client/src/components/NotificationCenter.tsx:136-140 | deletion keeps order and changes nothing for an unknown id |
| NotificationCenter.Filtered | client/src/components/NotificationCenter.tsx:142-145 | 'all' is the whole list, and 'unread' exactly the unread notifications |
| NotificationCenter.UnreadCount | client/src/components/NotificationCenter.tsx:147 | zero exactly when every notification is read |
| NotificationCenter.Arrive | client/src/components/NotificationCenter.tsx:164 | the new unread notification is put first |
| NotificationCenter.ArriveRaisesUnread | client/src/components/NotificationCenter.tsx:150-169 | an arrival raises the unread count by one |
| FileUpload.AnyAdmits | client/src/components/FileUpload.tsx:72-78 | some entry of the accept list admits the type |
| FileUpload.Validate | client/src/components/FileUpload.tsx:64-83 | the size check comes first. A file passes exactly when within the size limit and of an accepted type |
| FileUpload.WildcardAdmitsAll | client/src/components/FileUpload.tsx:68 | with "*/*" as the accept value or one of its entries, every type passes |
| FileUpload.MajorTypeEntry | client/src/components/FileUpload.tsx:69-80 | a major-type wildcard entry admits exactly the types that begin with that major type and a slash |
| FileUpload.AcceptedItemsExact | client/src/components/FileUpload.tsx:89-108 | exactly the files that pass validation yield items |
| FileUpload.AcceptedItemsGrow | client/src/components/FileUpload.tsx:89-108 | accepted files keep their input order |
| FileUpload.Removed | client/src/components/FileUpload.tsx:177-185 | exactly the entries with the id go |
| FileUpload.Uploader.constructor | client/src/components/FileUpload.tsx:38-42 | the list starts empty |
| FileUpload.Uploader.Select | client/src/components/FileUpload.tsx:85-115 | the accepted items are appended with `multiple` and replace the list without it. An empty result changes nothing |
| FileUpload.Uploader.Remove | client/src/components/FileUpload.tsx:177-185 | the list loses exactly the entries with the id |
| Help.Toggle | client/src/pages/Help.tsx:21-27 | an absent id is appended and a present id removed everywhere. No other id changes |
| Help.ToggleNoDuplicates | client/src/pages/Help.tsx:21-27 | the list stays duplicate-free |
| Help.ToggleTwice | client/src/pages/Help.tsx:21-27 | toggling twice restores a list without the id |
| Help.FilteredFaqs | client/src/pages/Help.tsx:166-174 | exactly the sections whose title, or some question or answer, contains the query, ignoring case |
| Help.FilteredFaqsOrder | client/src/pages/Help.tsx:166-174 | the search keeps order, and an empty query keeps every section |
| Chat.SendMessage | client/src/pages/Chat.tsx:143-157 | with a non-blank input and a selected contact, the trimmed text is appended from "You" as one's own and the input is cleared. Otherwise nothing changes |
| Chat.FilteredContacts | client/src/pages/Chat.tsx:131-133 | exactly the contacts whose name contains the query, ignoring case |
| Chat.FilteredContactsOrder | client/src/pages/Chat.tsx:131-133 | the search keeps order, and an empty query keeps every contact |

## Left out

- The socket.io and Express plumbing is not modelled: CORS, static serving, listening and the error middleware. socket.io's cleanup of a closing socket is taken as removing it from all its rooms before the disconnect handler runs (`LeaveAllSockets`).
- The socket handlers and REST handlers never run concurrently (Node's single event loop). Requests are modelled as a sequence handled one at a time.
- `new Date()`, `Date.now()`, `uuidv4()` and `Math.random()` are parameters of the members that use them. Dates are millisecond integers.
- Mongoose persistence is not modelled: `save()`, finders, `populate`, indexes, the aggregate queries and the empty async stubs of the analytics service. The schema methods act on the fields they change.
- The defaults Mongoose fills into the subdocuments the schema methods push are not modelled: a version's `createdAt` and `isPublished: false` (Document.js:58-65), and a comment's `resolved: false`, `replies: []` and timestamps (Document.js:18-38). `DocumentSchema.Version` and `DocumentSchema.Comment` hold only the fields the methods pass.
- `averageTaskCompletion` is not modelled, because it divides floats and yields NaN for an empty team. `formatFileSize` is not modelled, because it uses `Math.log` and `toFixed`.
- `Math.round` is modelled on exact rationals (`Numbers.RoundPercent`). Floating-point rounding of 100·c/t is not modelled.
- `recordView` in Document.js is not modelled, because it calls `find` on a number and throws.
- `metadata.size` (`Buffer.byteLength` of UTF-8) is not modelled. `characterCount` counts code points, where JavaScript's `length` counts UTF-16 units.
- `Text.Lower` folds ASCII letters only, where `toLowerCase` folds all of Unicode.
- The random upload progress and the interval that generates notifications are not modelled. `NotificationCenter.Arrive`: the kind is a parameter, so it may also be Error, which the generator never draws.
- The rendering of the time labels (`toLocaleDateString` and the "Nm ago" text) is not modelled. The labels are datatype values.
- TaskManager's `dueDate` stays the form's text, because turning it into a `Date` is not modelled.
- The object URLs of FileUpload (`createObjectURL`/`revokeObjectURL`) are parameters or not modelled.
- The DOM work of the editor (download, `getBoundingClientRect`, mouse tracking) is not modelled. Nor is its local `setContent` on typing, because only the outgoing debounced update is modelled.
- client/src/contexts/SocketContext.tsx and client/src/services/authService.ts are thin wrappers over socket.io-client, axios and localStorage, and are not part of this model.
- The authentication routes and the User model that server/__tests__/auth.test.js exercises are not part of this model.
- The rendering-only pages are not part of this model. Their filters are the same substring-and-equality filters as those of TaskManager and Chat.
- `UserRoutes.UserStore.Search`: the stores hold only users whose username and email are strings. A stored user without them would make the source throw, and that path is not modelled. users.js never populates the map itself.
- `Realtime.Members`: the room socket.io creates for each socket under its own id is not modelled. When a payload's `roomId` equals a socket id, the source delivers to that socket and the model delivers to no one.
- The `console.log` lines of the socket handlers (server/index.js:47, 69, 128, 150, 153) and the `alert` FileUpload raises for each rejected file (FileUpload.tsx:91-93) are not modelled. `FileUpload.Uploader.Select` skips a rejected file without a trace.
- `DocumentSchema.DocumentRecord.AddComment`: the comment is appended even when its trimmed content is empty. The `required` validator that makes the following `save()` reject it belongs to persistence, which is not modelled.
- `DocumentSchema.DocumentRecord.LogActivity`: an activity's `metadata` is a `Mixed` path that can hold any value. The model's `Mixed` is an object with string values only, so nested or non-string metadata is not covered.
- `ProjectSchema.ProjectRecord.LogActivity`: the same `Mixed` restriction applies to its activity metadata.
- `DocumentSchema.DocumentRecord.CreateVersion`: with `maxVersions` of 0 or less, the source still keeps one version after shifting, and the model does the same. The cap bound in `NextVersionsCap` is stated only for `maxVersions` >= 1.
