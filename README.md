# FlowChat client core in Dafny

A model of the core of a React/Supabase chat client, with proofs about it. The model covers:
- **Conversation directory** (`useConversations`). Builds the user's conversation list from the store: members joined to profiles, the newest message joined to its sender, newest first. Finds or creates a private conversation and creates groups.
- **Message stream** (`useMessages`). Holds a conversation's history joined to senders. Covers sending, read receipts, pushed inserts and the set of users typing.
- **User directory** (`useUsers`). The list of other users, the capped name search, and live profile patches.
- **Typing-debounce state machine** of the message composer, and the text of the typing indicator.
- **Pure derivations** in the sidebar (conversation search, user selection, group creation guard), the chat panel (call room, title, subtitle, message grouping) and a conversation row (title, preview, day bucket, unread badge).
- **Video-call session** (`useJitsi`): the room-name sanitiser and the loading / in-call / error / handle flags.

How the model is built:
- **The store.** The remote store is a value, `RemoteStore.Db`: one sequence of rows per table, in table order. Each query is a filter of a table, and an ordered query is a stable sort (`Sorting.SortBy`). Operations that write return the new `Db`.
- **Remote failures.** Which calls fail is a parameter: `failing: set<Call>` names the remote calls that return an error.
- **Generated values.** Server-generated ids and the current time are parameters as well.
- **Hook state.** Each hook's state is a class whose fields the methods update. Its `State()` is compared with a specification function of the old state, for example `Conversations.AfterFetch`.
- **Events.** Realtime events and timers are method calls.
- **Row types.** The row types of `src/lib/supabase-types.ts` are datatypes in `ChatTypes`: `Profile`, `SearchableProfile`, `Conversation`, `ConversationMember`, `Message`, `TypingIndicator`, `MemberWithProfile`, `MessageWithSender` and `ConversationWithDetails`. Their string unions are enumerations with their names and parsers.

Helper modules:
- `Wrappers`: `Option` and `Result`.
- `Seqs`: `filter`, `find`, `limit` and `.single()`.
- `Text`: JavaScript `trim`, ASCII `toLowerCase`, `includes`, code-point order and decimal formatting.
- `Sorting`: a stable insertion sort, as a function and as an in-place array method.

Where the app's intended behaviour and the code disagree, the model follows the code:
- **User search.** It rejects only queries that are blank after trimming; there is no two-character minimum. It reads the `profiles` table directly and returns full profiles.
- **Private conversations.** Their uniqueness is not guaranteed. `.single()` yields nothing when two shared private conversations exist, and a third is then created (`Conversations.DuplicatesCauseAnotherInsert`).
- **Unread count.** It is always 0.
- **Sending.** A send announces "stopped typing" only when an `onTyping` callback is given. A blank or disabled send changes nothing, the pending timer included.

## Model

| member | source | states |
|---|---|---|
| ChatTypes.StatusRoundTrip | src/lib/supabase-types.ts:6 | every status's name parses back to that status |
| ChatTypes.ParseStatus | src/lib/supabase-types.ts:6 | exactly the four status names parse, each to the status of that name |
| ChatTypes.ToSearchable | src/lib/supabase-types.ts:13-17 | the projection keeps user id, display name and avatar url |
| ChatTypes.ParseKind | src/lib/supabase-types.ts:21 | exactly "private" and "group" parse, to the kind of that name |
| ChatTypes.ParseRole | src/lib/supabase-types.ts:33 | exactly "admin" and "member" parse, to the role of that name |
| ChatTypes.ParseMessageType | src/lib/supabase-types.ts:42 | exactly text, image, file and system parse, to the type of that name |
| Sorting.SortByPermutation | src/hooks/useConversations.ts:92-96 | sorting keeps exactly the same entries (a permutation) |
| Sorting.SortBySorted | src/hooks/useConversations.ts:92-96 | under a strict weak order, no entry is placed before one that should precede it |
| Sorting.SortByStable | src/hooks/useConversations.ts:92-96 | entries that compare equal keep their relative order, as `Array.prototype.sort` guarantees |
| Sorting.SortInPlace | src/hooks/useConversations.ts:92-96 | the in-place sort leaves the array holding the stable sort of its old contents |
| Text.TrimIdempotent | src/hooks/useMessages.ts:63 | trimming trimmed content changes nothing |
| Text.BlankIffAllSpace | src/hooks/useMessages.ts:55 | text is blank after trimming exactly when every character is whitespace |
| Text.NatToStringRoundTrip | src/components/chat/TypingIndicator.tsx:15 | a count's decimal text reads back as the count |
| RemoteStore.ConversationIdsOfIff | src/hooks/useConversations.ts:19-31 | an id is among the user's conversation ids exactly when the user has a membership row for it |
| RemoteStore.ProfileOf | src/hooks/useConversations.ts:73 | the found profile has the user id and is a row of the list; none only when no row has it |
| RemoteStore.ProfileOfFetched | src/hooks/useConversations.ts:50-54 | looking up a user among the profiles fetched for a set of user ids containing it finds what the whole table gives |
| RemoteStore.NewerMessageOrder | src/hooks/useConversations.ts:63 | newest-first by creation time is a strict weak order |
| RemoteStore.OlderMessageOrder | src/hooks/useMessages.ts:23 | oldest-first by creation time is a strict weak order |
| RemoteStore.SetReadBy | src/hooks/useMessages.ts:112-115 | the update replaces `read_by` on the rows with that id and changes nothing else |
| RemoteStore.UpsertTypingRow | src/hooks/useMessages.ts:82-89 | when the user already has a row for the conversation, the table keeps its length and those rows get the new flag and time and nothing else; otherwise one row with the new id, flag and time is appended; every other row is unchanged |
| Conversations.NewerConversationOrder | src/hooks/useConversations.ts:92-96 | the comparator on last-message time (or creation time) is a strict weak order |
| Conversations.FetchResult | src/hooks/useConversations.ts:19-65 | a fetch fails only with a call that failed, and succeeds when none fails |
| Conversations.FetchResultSpec | src/hooks/useConversations.ts:12-65 | a failed membership query is the error; a user without memberships gets the empty list whatever else fails; otherwise the fetch fails exactly when a later query fails, reports the first of them in issue order, and else yields the sorted list |
| Conversations.AfterFetch | src/hooks/useConversations.ts:98-104 | loading ends; on success the list becomes the fetched one and the error is kept; on failure the list is kept and the error becomes the failed call |
| Conversations.AfterFetchIdempotent | src/hooks/useConversations.ts:12-105 | fetching twice from the same store is fetching once |
| Conversations.ErrorIsNeverCleared | src/hooks/useConversations.ts:98-100 | a success does not clear an earlier error |
| Conversations.FetchNewestFirst | src/hooks/useConversations.ts:92-96 | the fetched list is ordered by last-message time, else creation time, newest first |
| Conversations.SortedNewestFirst | src/hooks/useConversations.ts:92-96 | the sort with that comparator orders any list newest first |
| Conversations.FetchedListConversations | src/hooks/useConversations.ts:34-68 | the list holds exactly the conversation rows whose id was fetched |
| Conversations.FetchListsMemberships | src/hooks/useConversations.ts:19-68 | the list holds exactly the store's conversations the user is a member of |
| Conversations.FetchedProfileOfMember | src/hooks/useConversations.ts:50-73 | a member's profile found among the fetched profiles is the one the table holds for that user |
| Conversations.MembersAgree | src/hooks/useConversations.ts:69-74 | an entry's members are exactly the conversation's membership rows, in order, each with its user's profile |
| Conversations.FirstIsNewest | src/hooks/useConversations.ts:76 | the first match in the newest-first messages is a newest message of that conversation; none only when it has no message |
| Conversations.NewestAgrees | src/hooks/useConversations.ts:59-76 | the last message found is a newest message of the conversation in the store |
| Conversations.LastMessageAgrees | src/hooks/useConversations.ts:76-86 | an entry's last message is the newest, joined to its sender's profile |
| Conversations.BuildDetailsAgree | src/hooks/useConversations.ts:68-89 | every built entry has the right members, the newest message with its sender, and unread count 0 |
| Conversations.FetchedListAgrees | src/hooks/useConversations.ts:68-96 | sorting keeps every entry agreeing with the store |
| Conversations.FetchEntriesAgree | src/hooks/useConversations.ts:26-98 | every entry of a successful fetch agrees with the store |
| Conversations.ExistingPrivateIsShared | src/hooks/useConversations.ts:112-133 | the lookup finds a conversation exactly when the two users share exactly one private conversation |
| Conversations.CreatePrivateOutcome | src/hooks/useConversations.ts:107-167 | a refetch happens only after a conversation was created |
| Conversations.CreatePrivateSpec | src/hooks/useConversations.ts:107-167 | the list is refetched exactly when no conversation is found and both inserts succeed; a found one is returned with nothing written; a failed conversation insert returns nothing and writes nothing; a failed membership insert returns nothing and leaves the conversation row; a success adds the user as admin and the other as member |
| Conversations.ReusesSharedPrivate | src/hooks/useConversations.ts:126-137 | with one shared private conversation, it is returned and nothing is written |
| Conversations.DuplicatesCauseAnotherInsert | src/hooks/useConversations.ts:128-150 | with two or more shared private conversations, another one is inserted |
| Conversations.AddedRowsKeepOtherMemberships | src/hooks/useConversations.ts:153-158 | adding membership rows of one conversation changes no membership of any other |
| Conversations.OnlyNewPrivateShared | src/hooks/useConversations.ts:141-158 | after creation the new conversation is the only private conversation the two users share |
| Conversations.CreatePrivateIdempotent | src/hooks/useConversations.ts:107-163 | creating a private conversation, then asking again, returns the same conversation without writing, whichever of the two users asks |
| Conversations.CreatedPrivateShared | src/hooks/useConversations.ts:126-160 | after a first create, the new conversation is the only private one the two users share, seen from either of them |
| Conversations.CreateGroupOutcome | src/hooks/useConversations.ts:170-207 | the list is refetched exactly when the group was created |
| Conversations.GroupMembersExactly | src/hooks/useConversations.ts:174-200 | the new group is appended; exactly its membership rows are appended; its members are exactly the creator and the chosen users; the creator's row is the only admin row among them |
| Conversations.GroupMemberRows | src/hooks/useConversations.ts:186-194 | one row per chosen user plus one: the creator as admin first, then each chosen user as member, in order |
| Conversations.ConversationsHook.constructor | src/hooks/useConversations.ts:8-10 | the hook starts with no conversations, loading and no error |
| Conversations.ConversationsHook.FetchConversations | src/hooks/useConversations.ts:12-105 | without a user nothing changes; otherwise the state becomes `AfterFetch` of the old one |
| Conversations.ConversationsHook.OnPushEvent | src/hooks/useConversations.ts:215-242 | a message insert or the user's own new membership refetches; other events change nothing |
| Conversations.ConversationsHook.CreatePrivateConversation | src/hooks/useConversations.ts:107-168 | returns the outcome's conversation and store, and refetches exactly when it created one |
| Conversations.ConversationsHook.CreateGroupConversation | src/hooks/useConversations.ts:170-208 | returns the outcome's group and store, and refetches exactly when it created one |
| Messages.FetchMessagesResult | src/hooks/useMessages.ts:19-43 | a fetch fails only with a call that failed, and succeeds when none fails |
| Messages.FetchMessagesSpec | src/hooks/useMessages.ts:13-52 | a fetch fails exactly when one of its two queries fails and reports the first that does; a success is the history joined to the senders' profiles |
| Messages.AscendingIsHistory | src/hooks/useMessages.ts:19-23 | the history is exactly the conversation's messages, oldest first, messages with equal times in table order |
| Messages.FetchedMessagesJoin | src/hooks/useMessages.ts:28-43 | the joined list has the history's length and order, each message with its sender's profile or none |
| Messages.ReadByOnlyGrows | src/hooks/useMessages.ts:100-116 | marking changes only `read_by`, only by appending the user, and never a message the user sent or of another conversation |
| Messages.MarkAsReadIdempotent | src/hooks/useMessages.ts:109-116 | afterwards every message of others carries the user; nothing is pending and marking again writes nothing |
| Messages.MarkLoop | src/hooks/useMessages.ts:109-117 | the loop leaves the messages as `MarkedAll` says and counts one update per selected message lacking the user |
| Messages.MarkLoopStep | src/hooks/useMessages.ts:109-117 | one loop pass updates one row exactly when it lacks the user, and counts that write |
| Messages.MarkedUpToAll | src/hooks/useMessages.ts:109-117 | running the loop over every selected row is the whole marking |
| Messages.TypingSetIsOthersTyping | src/hooks/useMessages.ts:182-203 | the typing set is exactly the profiles of others with a typing row set to true, never the user |
| Messages.AfterFetch | src/hooks/useMessages.ts:45-50 | loading ends; on success the list becomes the fetched one and the error is kept; on failure the list is kept and the error becomes the failed call; typing users are untouched |
| Messages.PushedSender | src/hooks/useMessages.ts:145-149 | a failed query finds nobody; otherwise a sender is found exactly when one profile row has the sender's id, and it is that row |
| Messages.MessagesHook.constructor | src/hooks/useMessages.ts:8-11 | the stream starts empty, loading, without error or typists |
| Messages.MessagesHook.FetchMessages | src/hooks/useMessages.ts:13-52 | without a conversation or user nothing changes; otherwise the state becomes `AfterFetch` of the old one |
| Messages.MessagesHook.SendMessage | src/hooks/useMessages.ts:54-76 | nothing is sent for no conversation, no user, blank content or a failed insert; otherwise the message is sent: one row with trimmed content, the user as sender and the type is appended |
| Messages.MessagesHook.UpdateTypingStatus | src/hooks/useMessages.ts:78-93 | a failure changes nothing; otherwise the typing table is upserted: an existing row of the user keeps the table's length, a missing one is appended |
| Messages.MessagesHook.MarkAsRead | src/hooks/useMessages.ts:95-121 | the store's messages become what `MarkedAll` says, with one write per selected message lacking the user; no conversation, no user or a failed select changes nothing |
| Messages.MessagesHook.OnMessageInserted | src/hooks/useMessages.ts:141-157 | a pushed message of the open conversation is appended after all earlier ones, with its sender |
| Messages.MessagesHook.OnTypingChanged | src/hooks/useMessages.ts:180-204 | the typing users become the typing set |
| Users.NameBeforeOrder | src/hooks/useUsers.ts:22 | ordering by display name is a strict weak order |
| Users.DirectoryIsOthersByName | src/hooks/useUsers.ts:18-22 | the directory is exactly the other users' profiles, ordered by display name |
| Users.SearchUsersSpec | src/hooks/useUsers.ts:35-52 | no user, a blank query or a failure gives nothing; otherwise matching profiles of others, the first in table order, exactly ten when more match and all of them otherwise |
| Users.PatchProfileSpec | src/hooks/useUsers.ts:73-76 | the patch replaces exactly that user's entries, keeps length and order, changes nothing for an unknown user, and is idempotent |
| Users.AfterFetch | src/hooks/useUsers.ts:24-31 | loading ends; a failure keeps the list and records the error; a success lists the directory of other users and keeps the error |
| Users.UsersHook.constructor | src/hooks/useUsers.ts:8-10 | the hook starts with no users, loading and no error |
| Users.UsersHook.FetchUsers | src/hooks/useUsers.ts:12-33 | without a user nothing changes; otherwise the state becomes `AfterFetch` of the old one |
| Users.UsersHook.Search | src/hooks/useUsers.ts:35-53 | returns the search's answer: at most ten matching profiles of others, empty for no user, a blank query or a failure |
| Users.UsersHook.OnProfileUpdated | src/hooks/useUsers.ts:60-77 | with a user signed in the list is patched; without, it is unchanged |
| Composer.StepValid | src/components/chat/MessageComposer.tsx:27-66 | every event keeps the invariant: a timer is pending only right after a typing announcement, and no typing call is made without a callback |
| Composer.RunValid | src/components/chat/MessageComposer.tsx:27-66 | the invariant holds after any sequence of events |
| Composer.RunExtendsCalls | src/components/chat/MessageComposer.tsx:27-66 | calls already made are never taken back |
| Composer.InputAnnouncesTyping | src/components/chat/MessageComposer.tsx:27-43 | an input stores the text and, with a callback, announces typing and sets the timer 2000 ms ahead |
| Composer.StopOnlyAfterQuiet | src/components/chat/MessageComposer.tsx:35-42 | after an input, stop is announced exactly when 2000 ms pass without another input |
| Composer.InputRestartsTimer | src/components/chat/MessageComposer.tsx:35-42 | a second input within 2000 ms replaces the pending timer, so the first deadline fires nothing |
| Composer.SendSpec | src/components/chat/MessageComposer.tsx:46-59 | blank text or a disabled composer changes nothing; otherwise the untrimmed text is sent, then stop is announced exactly when there is a callback, the text is cleared and the timer cancelled |
| Composer.KeyDownSpec | src/components/chat/MessageComposer.tsx:61-66 | Enter without Shift sends; any other key changes nothing |
| Composer.MessageComposer.constructor | src/components/chat/MessageComposer.tsx:14-17 | the composer starts empty, with no timer and no calls |
| Composer.MessageComposer.HandleInputChange | src/components/chat/MessageComposer.tsx:27-44 | the state becomes the input step of the old one, and the invariant holds |
| Composer.MessageComposer.AdvanceClock | src/components/chat/MessageComposer.tsx:40-42 | a due timer fires the stop announcement, and the invariant holds |
| Composer.MessageComposer.HandleSend | src/components/chat/MessageComposer.tsx:46-59 | the state becomes the send step of the old one, and the invariant holds |
| Composer.MessageComposer.HandleKeyDown | src/components/chat/MessageComposer.tsx:61-66 | the default is prevented exactly for Enter without Shift, which sends |
| TypingIndicator.DisplayTextShape | src/components/chat/TypingIndicator.tsx:8-15 | nothing for no names; "X is typing", "X and Y are typing", or "X and N others are typing" where N is written in decimal without leading zeros and reads back as the count less one |
| TypingIndicator.DisplayTextCountsOthers | src/components/chat/TypingIndicator.tsx:15 | with the same first name, three or more typists give the same text exactly when their number is the same |
| Sidebar.FilterConversationsSpec | src/components/chat/ChatSidebar.tsx:52-61 | an empty query keeps the list; otherwise exactly the conversations whose name or a member's name contains it ignoring case, in order |
| Sidebar.ToggleSelectionSpec | src/components/chat/ChatSidebar.tsx:93-101 | toggling a selected user removes all of their entries and keeps the rest in order; an unselected one is appended |
| Sidebar.ToggleTwiceRestores | src/components/chat/ChatSidebar.tsx:94-100 | toggling an unselected user twice gives the selection back |
| Sidebar.FilterKeepsDistinct | src/components/chat/ChatSidebar.tsx:97 | removing entries keeps the selected users distinct |
| Sidebar.ToggleKeepsDistinct | src/components/chat/ChatSidebar.tsx:94-100 | a toggle never selects a user twice |
| Sidebar.ToggleAllDistinct | src/components/chat/ChatSidebar.tsx:93-101 | a selection built only by toggling never holds a user twice |
| Sidebar.MemberIds | src/components/chat/ChatSidebar.tsx:84 | the ids are the selected users' ids in selection order; every selected user's id is among them and no other, and none twice when the selection holds no user twice |
| Sidebar.SearchOutcomeIsSearch | src/components/chat/ChatSidebar.tsx:63-71 | a blank query gives no results without searching, which is also what the search itself returns; at most ten results |
| Sidebar.VisibleAfterSearch | src/components/chat/ChatSidebar.tsx:214 | the dialog lists the directory only for an empty box; a query of spaces lists nobody; any other query lists the search's answer, at most ten users |
| Sidebar.ChatSidebar.constructor | src/components/chat/ChatSidebar.tsx:44-50 | the sidebar starts with empty queries, names, selection and results and closed dialogs |
| Sidebar.ChatSidebar.HandleUserSearch | src/components/chat/ChatSidebar.tsx:63-71 | the query is recorded and the results become the search outcome |
| Sidebar.ChatSidebar.ToggleUserSelection | src/components/chat/ChatSidebar.tsx:93-101 | the selection is toggled and stays free of duplicates |
| Sidebar.ChatSidebar.HandleStartPrivateChat | src/components/chat/ChatSidebar.tsx:73-79 | the private conversation is found or created, the dialog closes exactly when there is one, and the hook refetches its list exactly when one was created |
| Sidebar.ChatSidebar.HandleCreateGroup | src/components/chat/ChatSidebar.tsx:81-91 | refused for a blank name, an empty selection or no user, with nothing changed; otherwise the group is created with the selected ids, the hook refetches exactly on success, and name and selection reset only on success |
| ChatPanel.RoomNameInjective | src/components/chat/ChatPanel.tsx:42 | two conversations share a room exactly when they have the same id; a room is never empty |
| ChatPanel.OtherMemberSpec | src/components/chat/ChatPanel.tsx:45-47 | a group has none; a private conversation's is its first member that is not the user, none only when all members are the user |
| ChatPanel.DisplayNameSpec | src/components/chat/ChatPanel.tsx:49-51 | the title is never empty: the group's name or "Group Chat", the other member's name or "Unknown User" |
| ChatPanel.SubtitleSpec | src/components/chat/ChatPanel.tsx:110-114 | "Online" exactly when the other member is online, else "Offline"; a group shows its member count |
| ChatPanel.GroupMessages | src/components/chat/ChatPanel.tsx:68-75 | grouping keeps the number of messages |
| ChatPanel.GroupMessagesSpec | src/components/chat/ChatPanel.tsx:68-75 | every message stays in place; the first is never grouped; a message is grouped exactly when the previous has the same sender and is under 60000 ms older |
| ChatPanel.ShowAvatarSpec | src/components/chat/ChatPanel.tsx:171 | an avatar is shown in groups, and in private chats exactly where a group of messages starts |
| ChatPanel.TypingLineSpec | src/components/chat/ChatPanel.tsx:176 | a typing line is shown exactly when someone types, beginning with the first typist's name |
| ConversationItem.DisplayNameMatchesHeader | src/components/chat/ConversationItem.tsx:17-23 | the row title is never empty and equals the panel title except for groups without a name ("Unnamed Group") |
| ConversationItem.PreviewSpec | src/components/chat/ConversationItem.tsx:44-48 | "No messages yet" without a message; otherwise the content, prefixed with "You: " exactly when the user sent it |
| ConversationItem.DaysAgoBounds | src/components/chat/ConversationItem.tsx:31 | the day count is the elapsed time in days rounded down |
| ConversationItem.FutureTimestampGetsWeekday | src/components/chat/ConversationItem.tsx:33-38 | as written, a message one millisecond in the future is labelled with a weekday |
| ConversationItem.DayBucketSpec | src/components/chat/ConversationItem.tsx:30-41 | time of day under one day (or in the future), "Yesterday" for one day, weekday under seven, else month and day; as written only future times differ |
| ConversationItem.ZeroUnreadRendersZero | src/components/chat/ConversationItem.tsx:80-82 | as written, an unread count of 0 renders a stray "0" |
| ConversationItem.FetchedRowsShowZero | src/components/chat/ConversationItem.tsx:80-82 | as written, every row of a fetched list shows the stray "0" |
| ConversationItem.BadgeSpec | src/components/chat/ConversationItem.tsx:80-82 | a badge exactly for a positive count, "9+" above nine, else the count; never stray text; differs from the code only at 0 |
| Jitsi.SanitizeSpec | src/hooks/useJitsi.ts:64 | the cleaned room has only letters, digits and '-', keeps every such character in order, is idempotent and leaves clean names unchanged |
| Jitsi.CleanIdsKeepRoomsApart | src/hooks/useJitsi.ts:64 | a room of a clean conversation id is passed unchanged, so two such conversations never share a call |
| Jitsi.StartSpec | src/hooks/useJitsi.ts:51-140 | no container: only the error "Container not ready"; a failure: loading off and the script failure, the thrown error's message, or "Failed to start call" for a thrown non-error; a start: loading, no error, a handle and the cleaned room name |
| Jitsi.TransitionsKeepValid | src/hooks/useJitsi.ts:109-135 | the hook is in a call only while it holds a handle; leaving releases it |
| Jitsi.EndCallSequence | src/hooks/useJitsi.ts:143-154 | ending without a handle does nothing; with one it sends one hangup, then the timer ends the call and releases the handle once |
| Jitsi.DisposeOnce | src/hooks/useJitsi.ts:121-135 | a handle is released at most once |
| Jitsi.CallSession.constructor | src/hooks/useJitsi.ts:28-32 | the session starts idle with no handle and no error |
| Jitsi.CallSession.SetContainer | src/hooks/useJitsi.ts:28 | the container reference is set |
| Jitsi.CallSession.StartCall | src/hooks/useJitsi.ts:51-141 | the state becomes `Start` of the old one |
| Jitsi.CallSession.OnConferenceJoined | src/hooks/useJitsi.ts:109-111 | arrives only while a handle is held; loading ends, the call is joined, and the session is in a call only while holding a handle |
| Jitsi.CallSession.OnConferenceLeft | src/hooks/useJitsi.ts:121-135 | the call is left and the handle released |
| Jitsi.CallSession.EndCall | src/hooks/useJitsi.ts:143-145 | with a handle a hangup is sent |
| Jitsi.CallSession.OnEndTimer | src/hooks/useJitsi.ts:146-152 | the handle is released and the call is over |
| Jitsi.CallSession.Unmount | src/hooks/useJitsi.ts:157-164 | the handle is released |

## Left out

- Supabase queries, inserts, upserts and the network: the store is the value `Db` and a failure is a member of `failing`; the ids and timestamps the server generates are parameters.
- Realtime channel subscription and teardown: events arrive as method calls (`OnPushEvent`, `OnMessageInserted`, `OnTypingChanged`, `OnProfileUpdated`).
- Interleaving of asynchronous calls: each operation runs to completion against one store value, so overlapping fetches and late search results are not modelled.
- Real timers: the composer's stop timer is a deadline reached by `AdvanceClock`, and the call's 500 ms timer is `OnEndTimer`. The 1000 ms screen-share toggle is omitted because it is a call into the call service.
- Jitsi script loading, `JitsiMeetExternalAPI` construction and its configuration object: foreign code. Whether startup succeeds is the `Startup` parameter.
- Jitsi.CallSession.StartCall: starting while a handle is held replaces it without releasing it, and the model does not count that lost handle.
- Locale and date formatting: the day bucket chooses the label but does not format it. Timestamps are integer milliseconds, so unparseable dates are not modelled.
- Users.DirectoryIsOthersByName: the database collation of `order('display_name')` is modelled as code-point order.
- Sidebar.FilterConversationsSpec: `toLowerCase` folds only ASCII letters here. JavaScript also folds accented and non-Latin letters, so a query such as "É" matches fewer names in the model than in the app.
- RemoteStore.UpsertTypingRow and Messages.MessagesHook.UpdateTypingStatus: the model assumes the (conversation, user) pair is the upsert's conflict target. The code does not make it one. Its upsert passes no `onConflict: 'conversation_id,user_id'`, so conflicts resolve on the primary key `id`, which the payload omits. A second call for the same pair then either appends another row or fails on a unique constraint over the pair. That error is returned rather than thrown and is never read. Either way the existing row keeps its old flag, and a user who stopped typing can stay in the typing set. The model instead updates that row in place.
- Users.SearchUsersSpec: `ilike` is modelled as ASCII case-insensitive substring matching. The `%` and `_` wildcards a query may contain are matched literally. The search query has `limit(10)` and no `order()`, so the database promises no order and no choice of which ten rows come back. The model takes the first matches in table order.
- Messages.MessagesHook.MarkAsRead: the rows the select returns are whole messages rather than `id, read_by` pairs, and `read_by` is never null.
- The composer's focus state, the textarea auto-resize, framer-motion animation and JSX markup: presentation only.
- The chat panel's `callMode`, its scroll-to-bottom effect and the effect that calls `markAsRead`: UI wiring. `markAsRead` itself is modelled.
- `VideoCallModal.tsx`, `UserAvatar.tsx`, `ChatMessage.tsx` and `ChatPage.tsx`: presentation and routing, not part of this model.
- Unread-count computation: the code has none, and it always sets 0.
- Console logging of caught errors.

## Findings

| source | as written | input that shows it | evidently intended | confidence | as-written member | corrected member |
|---|---|---|---|---|---|---|
| src/components/chat/ConversationItem.tsx:80 | `unreadCount && unreadCount > 0 && <span>…` yields the number 0 for a count of 0, which React renders as text | any conversation row with `unreadCount` 0, which is every fetched row | no badge and no text when nothing is unread | high (not executed) | ConversationItem.ZeroUnreadRendersZero | ConversationItem.BadgeSpec |
| src/components/chat/ConversationItem.tsx:33 | a timestamp ahead of the local clock gives a negative day count, which `days < 7` labels with a weekday | local clock 1000 ms, message `created_at` 1001 ms (a server clock slightly ahead) | the time of day for a message sent just now | medium (not executed) | ConversationItem.FutureTimestampGetsWeekday | ConversationItem.DayBucketSpec |
