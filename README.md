# Study-buddy app: a Dafny model

This project models the rule-based core of a study-buddy web application: a Flask back end that matches students as study buddies, carries their chat and notifications, manages accounts, profiles and password resets, and generates personalised challenges, together with the React client that calls it.

The back end is modelled on in-memory tables held by one `Models.Database` object (users, profiles, buddy-connection rows, messages, notifications, challenges). Each route is a method that reads or changes those tables and answers with a status code and a text, as the route does. The pure parts — compatibility scores, connection status, levels and streaks, listings, pagination, code checks, file-name checks — are functions with lemmas about them. Each listing built by a loop in the source is a method with a loop, proved equal to a specification function.

The client is modelled as small classes holding the state each page keeps (dashboard, buddies tab, chat window, session context, sign-up, profile and forgot-password pages, activity feed). Their handlers are methods whose contracts state the complete new state. The outcome of every request is a parameter.

Modules, one per source file, plus two helpers:

- `Common`: option and reply types, and the string helpers (strip, lower/upper case, split, join, search).
- `Sorting`: a sort by an integer key, with sortedness and permutation proved.
- `Models`: the tables and records (`backend/models.py`).
- Back-end routes and services: `Buddies`, `Overview`, `Chat`, `MessageStorage`, `MessageRetention`, `Notifications`, `Admin`, `Auth`, `ProfileRoutes`, `PersonalizedChallenges`.
- Client: `ApiClient`, `Dashboard`, `BuddiesTab`, `MessagesPage`, `AuthSession`, `ForgotResetPassword`, `SignUp`, `ProfilePage`, `ActivityFeed`.

## Model

| member | source | states |
|---|---|---|
| Models.Approve | backend/models.py:72-74 | `approve()` returns the same row with status `approved`; id and both parties are unchanged |
| Models.Reject | backend/models.py:76-78 | `reject()` returns the same row with status `rejected`; id and both parties are unchanged |
| Models.NewConnection | backend/models.py:59-65 | a row built without a status is `pending` |
| Models.Database.AddConnection | backend/routes/buddies.py:414-420 | appends exactly one pending row with a fresh key from the sender to the buddy; every other table is unchanged |
| Models.Database.RemoveConnection | backend/routes/buddies.py:548 | deletes exactly the row at the given position; the other rows keep their order and every other table is unchanged |
| Models.ReversePairAdmitted | backend/models.py:68-70 | the unique constraint is on the ordered pair `(user_id, buddy_id)`: a table holding a row and its reverse satisfies it |
| Models.UnorderedImpliesOrdered | backend/models.py:68-70 | one row per unordered pair implies the table's ordered unique constraint |
| Models.ApprovedConnectionsOf | backend/models.py:32-37 | a row is among `get_connections` exactly when it is approved and the user is its initiator or its receiver; the result is never longer than the table |
| Models.ApprovedConnectionsSymmetric | backend/models.py:32-37 | users `a` and `b` find an approved row between them among `a`'s connections exactly when they find one among `b`'s |
| Models.Challenge.constructor | backend/models.py:126-138 | a new challenge has the column defaults: progress 0, total 100, xp 0, status `active`, no completion time |
| Models.Challenge.UpdateProgress | backend/models.py:140-145 | stores the new progress; progress at or above the total makes the challenge `completed` at the given time; otherwise status and completion time are unchanged, so a completed challenge never goes back to active |
| Models.FindByEmail | backend/routes/auth.py:68 | none exactly when no account has this e-mail; otherwise an account of the table with exactly this e-mail |
| Models.FindByUsername | backend/routes/auth.py:36 | none exactly when no account has this name; otherwise an account of the table with exactly this name |
| Buddies.InterestSet | backend/routes/buddies.py:24-32 | a value is in the set exactly when it is some comma-separated piece, stripped and lower-cased; the set is never empty |
| Buddies.ScheduleMatches | backend/routes/buddies.py:51-56 | the number of shared indicators out of the six (weekday … night) is at most 6 |
| Buddies.InterestScore | backend/routes/buddies.py:21-40 | the interests part is between 0 and 40 |
| Buddies.SpecializationScore | backend/routes/buddies.py:42-48 | the specialization part is 0, 15 or 30 |
| Buddies.ScheduleScore | backend/routes/buddies.py:50-62 | the schedule part is between 0 and 30 |
| Buddies.RoundHalfEven | backend/routes/buddies.py:64 | Python's `round` lands within one half of the exact score |
| Buddies.Compatibility | backend/routes/buddies.py:14-64 | the rounded, capped score is an integer between 0 and 100 |
| Buddies.CompatibilitySymmetric | backend/routes/buddies.py:22-62 | the score does not depend on which of the two profiles is the current user's |
| Buddies.BlankProfilesScoreFifty | backend/routes/buddies.py:38-40 | two profiles with no interests, specialization or schedule score exactly 50 (20 + 15 + 15) |
| Buddies.SameInterestsAndSpecialization | backend/routes/buddies.py:34-45 | equal specializations and identical non-empty interests give at least 70 |
| Buddies.FirstBetween | backend/routes/buddies.py:70-81 | the first row, in table order, joining the two users in either direction; none exactly when no such row exists |
| Buddies.ConnectionStatus | backend/routes/buddies.py:66-91 | one of the four statuses; `not_connected` exactly when no row joins the pair; `connected` only for an approved row; `request_sent` exactly when the first row joining the pair is not approved and the asking user sent it, `request_received` exactly when it is not approved and the other user sent it |
| Buddies.OnlyRowIsFirst | backend/routes/buddies.py:70-81 | with one row per pair, any row joining the two users is the row the status query finds |
| Buddies.RequestDirection | backend/routes/buddies.py:83-91 | with one row per pair, `request_sent` exactly when a non-approved row between the two was sent by the asking user, `request_received` exactly when it was sent by the other user |
| Buddies.StatusMirrored | backend/routes/buddies.py:66-91 | both users see the same relation: both `connected`, both `not_connected`, or `request_sent` on one side and `request_received` on the other |
| Buddies.ConnectedIffApproved | backend/routes/buddies.py:83-85 | with one row per pair, `connected` means exactly that the pair's row is approved |
| Buddies.AppendFreshPairKeepsUnique | backend/routes/buddies.py:396-418 | adding a row for a pair that has none in either direction keeps one row per unordered pair |
| Buddies.StatusChangeKeepsUnique | backend/routes/buddies.py:498-499 | changing a row's status keeps one row per unordered pair |
| Buddies.RemovalKeepsUnique | backend/routes/buddies.py:547-548 | deleting a row keeps one row per unordered pair |
| Buddies.ConnectBuddy | backend/routes/buddies.py:377-430 | refuses, in this order, a missing or zero `buddy_id` (400), an unknown user (404), the user themself (400) and a pair with a row in either direction (400), changing nothing; otherwise appends exactly one pending row from the current user to the buddy plus one notification for the buddy, and keeps one row per pair |
| Buddies.FindPendingRequest | backend/routes/buddies.py:489-493 | the first row with this id that is pending and addressed to the current user, if any |
| Buddies.AcceptConnectionRequest | backend/routes/buddies.py:484-518 | a row that is not a pending request to the current user answers 404 and changes nothing; otherwise exactly that row becomes approved and the sender gets one `connection_accepted` notification |
| Buddies.DeclineConnectionRequest | backend/routes/buddies.py:533-554 | a row that is not a pending request to the current user answers 404 and changes nothing; otherwise exactly that row is deleted and the other rows keep their order |
| Buddies.DeclinedPairCanReconnect | backend/routes/buddies.py:533-554 | with one row per pair, once the declined row is deleted no remaining row joins sender and receiver, so a new request passes the existing-row check |
| Buddies.DisplayInterests | backend/routes/buddies.py:200-206 | the listed interests are the comma-separated pieces, stripped but not lower-cased; none for an empty field |
| Buddies.CollectPartners | backend/routes/buddies.py:176-181 | the loop over the current user's rows collects exactly the other party of each row |
| Buddies.PartnerIdsComplete | backend/routes/buddies.py:168-181 | anyone the current user shares a row with is excluded |
| Buddies.PartnerIdsSound | backend/routes/buddies.py:168-181 | every excluded id shares a row with the current user |
| Buddies.Candidates | backend/routes/buddies.py:184-188 | a user is a candidate exactly when they are in the table, are not the current user, are not excluded and have a profile |
| Buddies.RecommendedBuddies | backend/routes/buddies.py:155-273 | without a profile answers 404; otherwise the specialization, interests and schedule buckets, each sorted by compatibility, concatenated |
| Buddies.RecommendedAreStrangers | backend/routes/buddies.py:168-188 | every recommended user is someone else with a profile who shares no row with the current user, shows `not_connected`, and matches in specialization, interests or schedule (also lines 219, 257-263) |
| Buddies.RecommendedIncludesMatches | backend/routes/buddies.py:184-263 | every stranger with a profile who matches in one of the three ways is recommended |
| Buddies.RecommendedOrdered | backend/routes/buddies.py:265-271 | specialization matches come first, then interest matches, then schedule matches, and compatibility is non-increasing within each bucket |
| Buddies.SortedBucketMembers | backend/routes/buddies.py:257-268 | a sorted bucket is in compatibility order and every card in it has that bucket's rank |
| Buddies.ListedCompatibility | backend/routes/buddies.py:321 | the listed compatibility is 0 when the current user has no profile, else the score; it is within 0..100 (also line 599) |
| Buddies.ListedStatusAgrees | backend/routes/buddies.py:323-339 | the status the "all" listing computes is the one `check_connection_status` reports |
| Buddies.AllPotentialBuddies | backend/routes/buddies.py:287-363 | the cards of the other users with a profile, with the listing's compatibility and status |
| Buddies.PotentialCards | backend/routes/buddies.py:318-361 | the loop over the users yields exactly the specified card of each user, in table order |
| Buddies.PotentialOf | backend/routes/buddies.py:320-361 | one user's card: its compatibility and the status of the first row joining the two users |
| Buddies.AllPotentialConsistent | backend/routes/buddies.py:287-363 | every other user with a profile is listed, and every card's status agrees with `check_connection_status` |
| Buddies.PendingTo | backend/routes/buddies.py:450-453 | a row is listed exactly when it is pending and addressed to the current user |
| Buddies.ConnectionRequests | backend/routes/buddies.py:445-470 | the entries built from the pending requests addressed to the current user; each carries a request's id and that request's sender |
| Buddies.ListedRequestsAreAcceptable | backend/routes/buddies.py:445-531 | every listed request can be accepted (and declined) by the current user |
| Buddies.ConnectedEntries | backend/routes/buddies.py:588-621 | every card is `connected` and names the other party of one of the rows (the converse is Buddies.ConnectedEntriesComplete) |
| Buddies.ConnectedBuddies | backend/routes/buddies.py:569-623 | the cards built from the current user's approved rows, in either direction (`get_connections`); every approved row whose other party has an account and a profile has a card for that party |
| Buddies.ConnectedEntriesComplete | backend/routes/buddies.py:588-621 | every row whose other party has an account and a profile yields a card for that party |
| Buddies.ConnectedListingAgrees | backend/routes/buddies.py:569-623 | with one row per pair, everyone in the connected listing is `connected` according to `check_connection_status` |
| Buddies.InterestFraction | backend/routes/buddies.py:34-38 | the share of common interests among the larger of the two sets, between 0 and 40 |
| Buddies.CountShared | backend/routes/buddies.py:55-56 | the number of schedule indicators found in both schedules, at most the number of indicators |
| Buddies.RawScore | backend/routes/buddies.py:18-62 | the unrounded sum of the interest, specialization and schedule parts lies between 0 and 100 |
| Buddies.CappedScore | backend/routes/buddies.py:64 | the rounded score, capped at 100, lies between 0 and 100 |
| Overview.PlainInterestScore | backend/routes/overview.py:139-147 | the interests part is between 0 and 40 and never above the buddy routes' interests part |
| Overview.PlainSpecializationScore | backend/routes/overview.py:149-152 | the specialization part is 0 or 30 and never above the buddy routes' part |
| Overview.PlainScheduleScore | backend/routes/overview.py:154-163 | the schedule part is between 0 and 30 and never above the buddy routes' part |
| Overview.PlainRawScore | backend/routes/overview.py:137-163 | the unrounded sum is non-negative and never above the buddy routes' sum |
| Overview.OverviewCompatibility | backend/routes/overview.py:135-165 | the score is an integer between 0 and 100 |
| Overview.OverviewNeverAbove | backend/routes/overview.py:135-165 | the overview never scores a pair higher than the buddy routes do, because it gives no partial credit |
| Overview.ScorersAgreeWithoutSharedGap | backend/routes/overview.py:135-165 | the two scorers agree unless some field is empty on both sides |
| Overview.BlankProfilesScoreZero | backend/routes/overview.py:135-165 | two blank profiles score 0 here and 50 in the buddy routes |
| Overview.OverviewCompatibilitySymmetric | backend/routes/overview.py:135-165 | the score does not depend on the order of the two profiles |
| Overview.OverviewStatus | backend/routes/overview.py:167-190 | one of the four statuses; `not_connected` exactly when no row joins the pair; `connected` only for an `accepted` row; `request_sent` exactly when the first row joining the pair is not `accepted` and the asking user sent it, `request_received` exactly when the other user sent it |
| Overview.OverviewRequestDirection | backend/routes/overview.py:182-190 | with one row per pair, `request_sent` exactly when a row between the two that is not `accepted` was sent by the asking user, `request_received` exactly when it was sent by the other user |
| Overview.OverviewNeverConnected | backend/routes/overview.py:182-188 | with the statuses the routes write (pending, approved, rejected), the overview never reports `connected`; a pair the buddy routes call connected shows as a request sent or received |
| Overview.CalculateLevel | backend/routes/overview.py:192-194 | at least 1; 1 for xp ≤ 0; for xp > 0, 100·(level−1)² ≤ xp < 100·level² |
| Overview.NextLevelXp | backend/routes/overview.py:70 | for a level of 1 or more, `nextLevelXp` is the least xp at which `calculate_level` gives the next level: it gives level + 1 there and the level itself one xp below |
| Overview.LevelAtThreshold | backend/routes/overview.py:192-194 | at 100·l² xp (l ≥ 1) the level is l + 1 |
| Overview.LevelBelowThreshold | backend/routes/overview.py:192-194 | one xp below 100·l² (l ≥ 1) the level is l |
| Overview.LevelBracketsXp | backend/routes/overview.py:192-194 | for xp > 0, the previous threshold ≤ xp < `nextLevelXp` (also line 70) |
| Overview.LevelMonotone | backend/routes/overview.py:192-194 | more xp never gives a lower level |
| Overview.CalculateStreak | backend/routes/overview.py:196-202 | 0 without activities; never above 3; twice the streak never exceeds the number of activities, and a streak below 3 is the largest such number |
| Overview.Stats | backend/routes/overview.py:57-71 | the stats carry the xp total, a streak of at most 3, and a `nextLevelXp` above any positive xp (100 with no xp) |
| Overview.RecommendedWithLimit | backend/routes/overview.py:80-129 | the overview's recommendation list as specified by the listing below |
| Overview.CardsOf | backend/routes/overview.py:109-126 | the loop over the recommended users yields exactly the specified card of each, in order |
| Overview.CardOf | backend/routes/overview.py:114-126 | one user's overview card with its compatibility and connection status |
| Overview.OverviewRecommendedProperties | backend/routes/overview.py:85-106 | at most `limit` cards, best score first; each card is `not_connected` and names another user with a profile who shares no row with the current user (also lines 128-129) |
| Overview.OverviewRecommendedComplete | backend/routes/overview.py:89-129 | no eligible user is passed over: the card of every other user with a profile who shares no row with the current user is listed, or `limit` cards are listed and each scores at least as high |
| Overview.OverviewLimitPrefix | backend/routes/overview.py:128-129 | a smaller limit gives a prefix of the list for a larger one |
| MessageStorage.ExpiryAt | backend/services/message_storage.py:14 | a stored message never expires before the instant it was stored (also line 23) |
| MessageStorage.Conversation | backend/services/message_storage.py:42-52 | a message is in the conversation exactly when it goes from one of the two users to the other, in either direction |
| MessageStorage.ConversationSymmetric | backend/services/message_storage.py:42-52 | the conversation is the same whichever of the two users asks |
| MessageStorage.TrimDeletesOldestBatch | backend/services/message_storage.py:73-110 | within the maximum nothing is deleted; above it exactly the min(100, count) oldest messages of that pair go, no deleted message is newer than a kept one of the pair, and other conversations are untouched |
| MessageStorage.DeleteMessages | backend/services/message_storage.py:106-109 | deleting a batch one row at a time leaves exactly the rows not in the batch, in order, and no other table changes |
| MessageStorage.CheckConversationSize | backend/services/message_storage.py:73-110 | the message table becomes the trimmed conversation table; no other table changes |
| MessageStorage.StoreMessage | backend/services/message_storage.py:10-37 | on success appends one unread message expiring `retentionDays` after now with a fresh key, trims that conversation and answers the key; a failed commit is rolled back and answers none with nothing changed |
| MessageStorage.Views | backend/services/message_storage.py:55-65 | one formatted entry per message, in order, each carrying the message's id, parties, content, timestamp and read flag |
| MessageStorage.GetRecentMessages | backend/services/message_storage.py:39-71 | the formatted newest `limit` messages of the conversation; a failing query answers [] |
| MessageStorage.FormatAll | backend/services/message_storage.py:55-65 | the formatting loop yields exactly one formatted entry per message, in order (also backend/routes/chat.py lines 58-68) |
| MessageStorage.RecentMessagesSymmetric | backend/services/message_storage.py:42-52 | the result does not depend on the order of the two users |
| MessageStorage.RecentMessagesNewest | backend/services/message_storage.py:42-53 | at most `limit` messages, all from the conversation, newest first, none older than a conversation message left out |
| MessageRetention.Cutoff | backend/services/message_retention.py:41-44 | the cut-off lies exactly `days` days before now |
| MessageRetention.KeepRecent | backend/services/message_retention.py:46-48 | a message is kept exactly when its send time is at or after the cut-off |
| MessageRetention.CleanupOldMessages | backend/services/message_retention.py:37-57 | on commit the table keeps exactly the messages sent at or after now − retention days; the count is the number deleted; a failed commit deletes nothing; other tables are untouched |
| MessageRetention.CleanupIdempotent | backend/services/message_retention.py:46-48 | a second clean-up with the same cut-off deletes nothing more |
| MessageRetention.LaterCutoffDeletesMore | backend/services/message_retention.py:44-48 | a later cut-off keeps a subset of what an earlier one keeps |
| MessageRetention.CleanupIgnoresExpiry | backend/services/message_retention.py:46-48 | the clean-up compares send times only: changing one message's `expires_at` changes nothing about which messages are kept |
| MessageRetention.FindMessage | backend/services/message_retention.py:65 | the position of the first row with that key; none exactly when no row has it |
| MessageRetention.SetMessageExpiry | backend/services/message_retention.py:59-73 | answers true exactly for an existing key with a successful commit; then only that message's `expires_at` changes, to now + `days` (the configured retention when `days` is None); otherwise nothing changes |
| MessageRetention.ExpiryDoesNotAffectCleanup | backend/services/message_retention.py:46-48 | setting a message's expiry changes nothing about what the next clean-up keeps (also lines 65-68) |
| Chat.ChatGateMatchesStatus | backend/routes/chat.py:17-33 | with one row per pair, the chat gate (an approved row in either direction) opens exactly for pairs `check_connection_status` calls connected |
| Chat.MarkRead | backend/routes/chat.py:71-75 | only read flags change, and a message ends read exactly when it was read already or goes from the buddy to the current user |
| Chat.MarkReadIdempotent | backend/routes/chat.py:71-75 | marking read twice is the same as marking read once |
| Chat.UnreadCount | backend/routes/chat.py:251-255 | the unread count never exceeds the number of messages |
| Chat.NoUnreadIff | backend/routes/chat.py:251-255 | the unread count is 0 exactly when every message from the buddy to the user is read |
| Chat.MarkReadClearsUnread | backend/routes/chat.py:71-75 | after the read marking the reader has nothing unread from the buddy (also lines 251-255) |
| Chat.MarkReadKeepsOwnUnread | backend/routes/chat.py:71-75 | the read marking leaves the reader's own messages to the buddy as they were |
| Chat.EffectivePage | backend/routes/chat.py:36 | the served page is at least 1 and is the requested page when that is at least 1 (also lines 51-55) |
| Chat.EffectivePerPage | backend/routes/chat.py:37 | the page size is the requested size when at least 1, otherwise 20 (also lines 51-55) |
| Chat.PageSlice | backend/routes/chat.py:51-55 | a page holds at most the page size of items, item k of page p is item (p−1)·size + k, and a page is empty exactly when the items run out before it |
| Chat.EveryItemOnItsPage | backend/routes/chat.py:51-55 | item i is at position i mod size on page i div size + 1, so no page skips or repeats an item |
| Chat.PageCount | backend/routes/chat.py:83 | `pages` is 0 exactly for no items, and otherwise the least count of pages that holds them all |
| Chat.HasNextIffMoreItems | backend/routes/chat.py:80 | `has_next` holds exactly when the next page has items |
| Chat.NewestFirst | backend/routes/chat.py:40-51 | exactly the pair's messages, newest first |
| Chat.PageOfNavigation | backend/routes/chat.py:51-55 | a page holds at most the page size; `total` counts the whole conversation; `has_prev` holds exactly past page 1; `has_next` exactly when the next page has messages (also lines 78-85) |
| Chat.PageOfContents | backend/routes/chat.py:40-68 | a page shows only messages of the pair, newest first, formatted |
| Chat.GetMessages | backend/routes/chat.py:12-85 | without an approved row answers 403 and changes nothing; otherwise answers the page of the conversation and marks read exactly the buddy's unread messages to the current user |
| Chat.SendMessage | backend/routes/chat.py:99-185 | refuses, in this order, missing or blank content (400), a pair without an approved row (403) and raw content over 1000 characters (400), changing nothing; otherwise stores the stripped content unread, expiring `retentionDays` after now, adds one `message` notification for the receiver, trims the conversation and answers the new key |
| Chat.NoteContent | backend/routes/chat.py:319 | the stored note is the note prefix followed by the stripped note |
| Chat.ChallengeContent | backend/routes/chat.py:380-384 | the prefix and the stripped title, followed by " - " and the unstripped description only when one is given |
| Chat.AttachNote | backend/routes/chat.py:285-333 | refuses blank content (400), then a pair without an approved row (403), changing nothing; otherwise appends one `note` message and nothing else: no length check, notification or trim |
| Chat.SendChallenge | backend/routes/chat.py:348-398 | refuses a blank title (400), then a pair without an approved row (403), changing nothing; otherwise appends one `challenge` message and nothing else |
| Chat.LastMessage | backend/routes/chat.py:237-248 | none exactly when the pair exchanged nothing; otherwise a message of the pair no older than any other |
| Chat.EntryFor | backend/routes/chat.py:224-266 | an entry exists exactly when the buddy exists and has a profile; it carries the buddy's details, the unread count from the buddy, and the last message and its time (none exactly when there is none) |
| Chat.ConversationEntries | backend/routes/chat.py:224-266 | at most one entry per row, each built from one of the rows |
| Chat.ConversationEntriesComplete | backend/routes/chat.py:224-266 | every row whose buddy exists and has a profile has its entry |
| Chat.GetConversations | backend/routes/chat.py:205-271 | the conversation list as specified below |
| Chat.EntriesOf | backend/routes/chat.py:223-266 | the loop over the approved rows yields exactly the specified entries, in row order, skipping buddies without an account or a profile |
| Chat.ConversationOf | backend/routes/chat.py:225-266 | one row's entry: none when the buddy has no account or no profile, otherwise the buddy with the last message and the unread count |
| Chat.ConversationsProperties | backend/routes/chat.py:210-269 | every entry is an approved buddy with a profile whose unread count counts the buddy's unread messages; entries are newest first, with no-message entries last; every approved buddy with a profile is listed |
| Chat.ReadingClearsConversationUnread | backend/routes/chat.py:71-75 | once a buddy's conversation has been read, the list shows no unread messages from that buddy (also lines 251-255) |
| Notifications.UnreadOnlyFlag | backend/routes/notifications.py:17 | the filter is on exactly when the argument is present and non-empty, so "false" turns it on (also lines 25-26) |
| Notifications.Selected | backend/routes/notifications.py:20-26 | a notification is selected exactly when it is the user's own and, with the filter on, unread |
| Notifications.Window | backend/routes/notifications.py:29 | exactly min(`limit`, what is left after `offset`) items, or all that is left for a negative `limit`; the items are consecutive, starting `offset` items in (at 0 for a negative offset) |
| Notifications.Views | backend/routes/notifications.py:32-42 | one formatted entry per notification, in order, with its id, type, title, message, timestamp and read flag |
| Notifications.GetNotifications | backend/routes/notifications.py:10-44 | the formatted window of the user's notifications, newest first, filtered as requested |
| Notifications.ListedProperties | backend/routes/notifications.py:15-29 | only the user's own notifications, only unread ones when the filter is on, newest first, at most `limit` of them when `limit` is not negative |
| Notifications.ListedCount | backend/routes/notifications.py:15-29 | the listing holds as many notifications as the window admits of all the matching ones |
| Notifications.ListedComplete | backend/routes/notifications.py:15-29 | with no offset and no limit, every notification of the user (every unread one, with the filter) is listed |
| Notifications.WindowSorted | backend/routes/notifications.py:22 | a window of a newest-first list is newest first and holds only items of the list (also line 29) |
| Notifications.WindowsAdjacent | backend/routes/notifications.py:29 | the window at `offset + limit` continues the window at `offset`: together they are the window of twice the size |
| Notifications.FindOwned | backend/routes/notifications.py:63-66 | the position of the first notification with this id owned by the user; none exactly when there is none |
| Notifications.MarkOneProperties | backend/routes/notifications.py:63-73 | only read flags change, only the owned notification with that id changes, it ends read, and marking it again changes nothing |
| Notifications.MarkNotificationAsRead | backend/routes/notifications.py:58-78 | a notification the user does not own, or that does not exist, answers 404 and nothing changes; otherwise 200 and it is marked read |
| Notifications.MarkAllRead | backend/routes/notifications.py:98-101 | only read flags change, and a notification ends read exactly when it was read or belongs to the user |
| Notifications.MarkAllNotificationsRead | backend/routes/notifications.py:93-104 | answers 200 and applies the bulk update to the user's notifications |
| Notifications.MarkAllEmptiesUnreadListing | backend/routes/notifications.py:98-101 | afterwards the user's unread listing is empty and every other user's listing is as before |
| Notifications.MarkAllKeepsOthers | backend/routes/notifications.py:98-101 | another user's selection is unchanged by mark-all |
| Admin.AdminLogin | backend/routes/admin.py:10-43 | missing email or password answers 400; an unknown or non-admin account answers 401 "Invalid admin credentials" before the password is checked; a wrong password answers 401 "Invalid credentials"; 200 exactly for an admin with the right password; a session starts only then, and only for an active account |
| Admin.AdminLogout | backend/routes/admin.py:46-55 | a non-admin gets 401 and stays logged in; an admin is logged out with 200 |
| Admin.AdminMe | backend/routes/admin.py:58-72 | a non-admin gets 401; an admin gets their own id, name, e-mail and admin flag |
| Admin.CountStatus | backend/routes/admin.py:89-92 | the number of rows with a status never exceeds the table |
| Admin.CountCompleted | backend/routes/admin.py:95 | the number of completed challenges never exceeds the table |
| Admin.AdminStats | backend/routes/admin.py:75-102 | a non-admin gets 401; otherwise the user count, the approved rows (`activeBuddies`), the pending rows (`pendingRequests`) and the completed challenges |
| Admin.CountsWithinTable | backend/routes/admin.py:89-92 | approved and pending rows together never exceed the table |
| Admin.StatusChangeMovesCount | backend/routes/admin.py:260-262 | overwriting one row's status moves it from its old status's count to the new one's; other counts are unchanged (also lines 281-283, 89-92) |
| Admin.UserEntryOf | backend/routes/admin.py:122-137 | the entry carries the account's id, name, e-mail and flags, and a profile summary exactly when the account has a profile |
| Admin.UserEntries | backend/routes/admin.py:121-139 | one entry per account, in table order |
| Admin.GetAllUsers | backend/routes/admin.py:108-141 | a non-admin gets 401; otherwise one entry per account, in table order |
| Admin.RequestRowOf | backend/routes/admin.py:162-182 | the row's id, parties and status, with each party's name exactly when that user exists |
| Admin.RequestRows | backend/routes/admin.py:160-184 | one entry per connection row, in table order, whatever its status |
| Admin.GetAllRequests | backend/routes/admin.py:147-186 | a non-admin gets 401; otherwise one entry per connection row, in table order |
| Admin.WithoutUser | backend/routes/admin.py:208 | exactly the accounts other than the deleted one remain |
| Admin.DeleteUser | backend/routes/admin.py:192-215 | a non-admin gets 401; an unknown key 500 (the 404 is caught by the handler); the admin's own key 400; these change nothing; otherwise 200, the account and its profile go, no other table changes, and the admin's own account is untouched; no id counter moves |
| Admin.RemoveUser | backend/routes/admin.py:208-209 | deletes the account and its profile and nothing else; the kept account is found as before |
| Admin.DeleteKeepsOthers | backend/routes/admin.py:208 | deleting one account leaves the lookup of every other account as it was |
| Admin.ToggleUserStatus | backend/routes/admin.py:218-243 | a non-admin gets 401; a status other than `active`/`inactive` 400 before the lookup; an unknown key 500; self-deactivation 400; these change nothing; otherwise only that account's `is_active` becomes (status == `active`); no other table and no id counter changes |
| Admin.NoSelfDeactivation | backend/routes/admin.py:236-240 | an allowed status change never leaves an active admin's own account inactive |
| Admin.FindUserAfterUpdate | backend/routes/admin.py:234-240 | updating one account without changing its key leaves every other lookup as it was |
| Admin.ConnectionIndex | backend/routes/admin.py:260 | the position of the first row with that key; none exactly when no row has it (also line 281) |
| Admin.SetRequestStatus | backend/routes/admin.py:250-288 | a non-admin gets 401 and an unknown row 500, changing nothing; otherwise exactly that row's status is overwritten, whatever it was; no row is deleted and one row per pair is kept |
| Admin.ApproveRequest | backend/routes/admin.py:250-268 | as above, the row becoming `approve()`d with 200 "Request approved successfully"; no other table and no id counter changes |
| Admin.RejectRequest | backend/routes/admin.py:271-289 | as above, the row becoming `reject()`ed with 200 "Request rejected successfully"; no other table and no id counter changes |
| Admin.ApprovalMovesPendingToActive | backend/routes/admin.py:89-92 | approving a pending row adds one to `activeBuddies` and takes one from `pendingRequests` (also lines 260-262) |
| Auth.NormalUsername | backend/routes/auth.py:28 | the username is the given text (empty when missing) with surrounding whitespace cut off, so it neither starts nor ends with whitespace |
| Auth.NormalEmail | backend/routes/auth.py:29 | the normalised e-mail is never longer than the given text and holds no upper-case letter (also line 62) |
| Auth.NormalisationsAgree | backend/routes/auth.py:29 | lower-then-strip (the reset routes) and strip-then-lower (sign-up and log-in) give the same address (also line 99) |
| Auth.AppendUnusedKeepsUnique | backend/models.py:9-10 | appending an account whose username and e-mail are unused keeps both columns unique |
| Auth.FindAppended | backend/routes/auth.py:43-45 | after an account with an unused e-mail is appended, that e-mail finds it (also line 68) |
| Auth.Signup | backend/routes/auth.py:24-57 | an empty normalised field answers 400; a taken username 409 "Username already exists" before a taken e-mail 409 "Email already registered"; these change nothing and start no session; 201 exactly otherwise, appending one account with the hashed password and starting its session |
| Auth.Login | backend/routes/auth.py:59-82 | an empty e-mail or password answers 400; 200 exactly for a known e-mail with the right password; every other case, unknown e-mail or wrong password, answers the same 401 "Invalid credentials"; a session starts only on 200 and only for an active account |
| Auth.SignupThenLogin | backend/routes/auth.py:24-82 | an account just created by sign-up is found by its e-mail and accepts the same password |
| Auth.GenerateCode | backend/routes/auth.py:93-94 | exactly `length` characters, every one a decimal digit |
| Auth.EveryCodeDrawable | backend/routes/auth.py:93-94 | every string of digits is a code some sequence of draws produces |
| Auth.CodeError | backend/routes/auth.py:134-138 | no error exactly for a stored, matching code at or before its expiry; "Reset code expired" exactly for a matching code strictly after it; otherwise "Invalid reset code" (also lines 152-156) |
| Auth.ResetCodes.ForgotPassword | backend/routes/auth.py:96-123 | an empty e-mail answers 400 and an unknown one 200, storing nothing; a known e-mail gets a fresh six-digit code expiring 15 minutes later, replacing any earlier one, and keeps it even when the mail fails (500) |
| Auth.ResetCodes.VerifyResetCode | backend/routes/auth.py:125-140 | missing e-mail or code answers 400; otherwise the code check's error, or 200 "Code verified"; the store is not changed, so the code is not consumed |
| Auth.ResetCodes.ResetPassword | backend/routes/auth.py:142-168 | missing fields 400, then the code check's error, then an unknown account 404, each changing nothing; otherwise only that account's hash is replaced and the code removed, after which the same code is refused as invalid; the other tables and every id counter are unchanged in all cases |
| Auth.ResetCodes.Store | backend/routes/auth.py:110 | the address's record becomes the new one, replacing any earlier code; other addresses keep theirs |
| Auth.ResetCodes.Consume | backend/routes/auth.py:166 | the address has no code afterwards; other addresses keep theirs |
| Auth.ConsumedCodeInvalid | backend/routes/auth.py:152-154 | once an address's code is removed, any code given for that address is refused as invalid (also line 166) |
| Auth.SetPasswordHash | backend/routes/auth.py:162-164 | replaces one account's password hash and changes nothing else |
| Auth.IssuedCodeLifetime | backend/routes/auth.py:109 | a code is accepted up to and including 15 minutes after issue, the expiry instant included, and refused as expired afterwards (also lines 137, 155) |
| Auth.ReissueInvalidatesEarlier | backend/routes/auth.py:108-110 | once a new code is issued, a different earlier code is refused as invalid |
| ProfileRoutes.AllowedFile | backend/routes/profile.py:15-19 | true exactly when the name holds a '.' and the text after its last '.', lower-cased, is png, jpg, jpeg or gif |
| ProfileRoutes.LastExtensionDecides | backend/routes/profile.py:17-19 | only the last extension counts: a name ending in "." + ext is allowed exactly when ext, lower-cased, is allowed |
| ProfileRoutes.SplitExt | backend/routes/profile.py:95 | `os.path.splitext`: name and extension together give the path back; the extension is empty or a '.' followed by no further '.' or '/' (also line 156) |
| ProfileRoutes.UploadPath | backend/routes/profile.py:94-99 | an upload is stored as "/uploads/profile_pics/<user id>_<secured name>" (also lines 155-160) |
| ProfileRoutes.UploadPathsSeparateUsers | backend/routes/profile.py:96 | two different users, or two different secured names, never share an upload path (also line 157) |
| ProfileRoutes.InterestsOut | backend/routes/profile.py:61 | empty for an unset column; otherwise at least one piece, no piece holds a comma, and the pieces joined with "," give the stored text back (nothing is stripped), so they are exactly the comma split |
| ProfileRoutes.PictureUrl | backend/routes/profile.py:47-51 | none exactly when no picture is stored; otherwise the backend host followed by the stored path with its leading '/' characters removed |
| ProfileRoutes.LeadingSlashes | backend/routes/profile.py:50 | the length of the run of '/' the path starts with |
| ProfileRoutes.UploadPictureUrl | backend/routes/profile.py:50-51 | a stored upload is served at the host followed by "uploads/profile_pics/<user id>_<name>", without a doubled slash (also line 99) |
| ProfileRoutes.GetProfile | backend/routes/profile.py:21-67 | without a stored profile: empty bio, specialization and schedule, no interests, `Beginner`, no picture; otherwise the stored columns, interests that are the comma split of the stored text (no piece holds a comma, and they join back to it), and a picture exactly when one is stored, on the backend's host |
| ProfileRoutes.Column | backend/routes/profile.py:108-124 | a body value is stored as its text, and null as an empty column |
| ProfileRoutes.InterestsColumn | backend/routes/profile.py:111-115 | a list of interests is stored joined with ", "; any other value as it is (also lines 177-179) |
| ProfileRoutes.SpacePrefixed | backend/routes/profile.py:61 | the items with a space in front of every item after the first (also line 114) |
| ProfileRoutes.JoinWithSpace | backend/routes/profile.py:114 | joining with ", " is joining the space-prefixed items with "," |
| ProfileRoutes.InterestsComeBackSpaced | backend/routes/profile.py:61 | a non-empty list of comma-free interests saved by the routes is read back with a leading space on every item after the first (also lines 113-115) |
| ProfileRoutes.RequestData | backend/routes/profile.py:86-105 | a multipart body is its form fields as text; none (415) exactly when the content type is neither multipart nor JSON (also lines 147-166) |
| ProfileRoutes.UploadedPicture | backend/routes/profile.py:91-99 | a picture path exactly for a multipart request with a non-empty, allowed file name, and then it is the upload path of the secured name (also lines 152-160) |
| ProfileRoutes.Merge | backend/routes/profile.py:107-128 | each of bio, interests, specialization, level and schedule is replaced only when the body carries it (interests lists joined with ", "); the picture only when one was uploaded; the owner never changes |
| ProfileRoutes.MergeProperties | backend/routes/profile.py:107-128 | an update with no known field and no upload changes nothing; applying an update twice is applying it once |
| ProfileRoutes.NewProfile | backend/routes/profile.py:176-189 | the created row takes each field from the body, else the default: empty texts and level `Beginner`; the picture is the upload, if any |
| ProfileRoutes.CreateProfile | backend/routes/profile.py:139-198 | an unsupported type answers 415, an empty body 400 "No input data provided", an existing profile 400 "Profile already exists"; 201 exactly otherwise when the commit succeeds, adding the new row; a database error answers 500 with its text; every non-201 answer leaves the profiles as they were |
| ProfileRoutes.UpdateProfile | backend/routes/profile.py:72-137 | an unsupported content type answers 415 whether or not a profile exists; without a profile it answers as `create_profile` (never "Profile already exists"); otherwise a database error 500, and success 200 with the merged row; non-200 answers change no profile |
| ProfileRoutes.UpdateThenRead | backend/routes/profile.py:21-67 | after an update the profile reads back each field the body carried and the old value of every other (also lines 107-128) |
| PersonalizedChallenges.InterestsList | backend/routes/personalized_challenges.py:33 | none for an empty text; otherwise one entry per comma-separated piece, stripped and lower-cased |
| PersonalizedChallenges.Numbered | backend/routes/personalized_challenges.py:37 | the i-th template is numbered from the counter plus i and takes the matching random draw (also lines 44-74) |
| PersonalizedChallenges.Progress | backend/routes/personalized_challenges.py:53 | a challenge's progress, taken from a random draw, lies between 0 and 100 |
| PersonalizedChallenges.Personalized | backend/routes/personalized_challenges.py:30-192 | two to six challenges, one per selected template, the i-th numbered i + 1 after its category's prefix, each with progress in 0..100 |
| PersonalizedChallenges.GeneratePersonalizedChallenges | backend/routes/personalized_challenges.py:30-192 | the method that extends the list category by category, advancing the counter, produces exactly that list |
| PersonalizedChallenges.Build | backend/routes/personalized_challenges.py:36-157 | extending block by block with the running counter numbers the matched templates 1, 2, … in order |
| PersonalizedChallenges.Extend | backend/routes/personalized_challenges.py:44-74 | one `extend` appends the category's challenges numbered from the counter, and the counter advances by the number added (also line 111) |
| PersonalizedChallenges.SelectedBounds | backend/routes/personalized_challenges.py:37-190 | whatever the profile says, two to six challenges are selected |
| PersonalizedChallenges.CategoriesInOrder | backend/routes/personalized_challenges.py:39-190 | categories appear in the order programming, data science, design, language, with the general ones last |
| PersonalizedChallenges.PythonAloneGivesFour | backend/routes/personalized_challenges.py:40-41 | the single interest "python" selects the two programming and the two data-science challenges and no general one (also lines 77-78, 160) |
| PersonalizedChallenges.NoMatchOnEmpty | backend/routes/personalized_challenges.py:43 | a category none of whose keywords is an interest does not match an empty specialization |
| PersonalizedChallenges.LetterRMatchesDataScience | backend/routes/personalized_challenges.py:77-80 | the keyword "r" makes any specialization containing the letter r a data-science match |
| PersonalizedChallenges.BlankProfileGetsGeneral | backend/routes/personalized_challenges.py:159-190 | no interests and no specialization give exactly the two general challenges |
| PersonalizedChallenges.Personal | backend/routes/personalized_challenges.py:8-28 | no profile answers 404; otherwise the suggestions for the stored interests and specialization, empty texts when unset |
| ApiClient.CollapseSpaces | frontend/src/pages/utils/api.js:44 | every character left is a plain space or a non-space character of the input; no two spaces are adjacent; the non-space characters are those of the input, in order; a leading run of white space becomes one space |
| ApiClient.CollapseRun | frontend/src/pages/utils/api.js:44 | a whole leading run of white space, of any length, becomes one space before the collapsed rest |
| ApiClient.CollapseConcat | frontend/src/pages/utils/api.js:44 | text that does not end in white space collapses independently of what follows it |
| ApiClient.CollapseInnerRun | frontend/src/pages/utils/api.js:44 | a run of white space between two pieces of text becomes exactly one space between their collapsed forms |
| ApiClient.KeepLettersAndSpaces | frontend/src/pages/utils/api.js:45 | a character is kept exactly when it is a letter or white space of the input |
| ApiClient.Cleaned | frontend/src/pages/utils/api.js:42-45 | the cleaned name holds only spaces and letters of the name |
| ApiClient.Initials | frontend/src/pages/utils/api.js:46-53 | at most two characters, each an upper-case letter that is the capital of a letter of the name |
| ApiClient.InitialsAvatar | frontend/src/pages/utils/api.js:38-57 | the placeholder URL followed by one or two capitals; "US" for a missing or empty name |
| ApiClient.NoLettersShowsFallback | frontend/src/pages/utils/api.js:54-56 | a name without any letter shows "US" |
| ApiClient.CleanedWordsText | frontend/src/pages/utils/api.js:42-45 | letters separated by single spaces survive the cleaning unchanged |
| ApiClient.WordsSplitBack | frontend/src/pages/utils/api.js:42-46 | words of letters joined by spaces are cleaned and split back into the same words |
| ApiClient.InitialsOfWords | frontend/src/pages/utils/api.js:46-53 | one word gives its first two letters, several words the first letters of the first two, in capitals |
| ApiClient.RemovedTokenLeavesEmptyWord | frontend/src/pages/utils/api.js:45-53 | "a 1 b" gives only "A": the dropped digit leaves an empty second word |
| ApiClient.ProfilePicture | frontend/src/pages/utils/api.js:59-66 | a stored picture starting with "http" is used as it is, any other under the API base; without a picture the avatar; without either, the initials avatar; never empty |
| ApiClient.Stamped | frontend/src/pages/utils/api.js:11-21 | only GET URLs change: they keep their prefix and gain "_t=" and the time after "&" when the URL already has a '?', after "?" otherwise, so the first '?' stays where it was or is the new one |
| ApiClient.StampRequest | frontend/src/pages/utils/api.js:11-21 | the interceptor leaves the verb and sets the URL to its stamped form |
| ApiClient.UnauthorizedRedirect | frontend/src/pages/utils/api.js:30-32 | a redirect to the login page with session_expired exactly when the path does not contain "/login" |
| ApiClient.RedirectSettles | frontend/src/pages/utils/api.js:30-32 | once on "/login", a further 401 redirects no more |
| ApiClient.OnResponseError | frontend/src/pages/utils/api.js:24-36 | a 401 removes "user" and "token" and redirects unless on a login path; other errors change nothing; the error is always passed on |
| ApiClient.ProfileApiCall | frontend/src/pages/utils/api.js:69-93 | the call goes to "/profile", as PUT exactly for an update, with the Content-Type left to the browser exactly for form data |
| Dashboard.InitialsAvatar | frontend/src/pages/Dashboard.jsx:27-51 | the dashboard's own initials avatar is the same image as the shared client's |
| Dashboard.ProfilePicture | frontend/src/pages/Dashboard.jsx:95-105 | a stored picture starting with "http" is used as it is, any other is looked up under the uploads folder; without one, the same choice as the shared client; never empty |
| Dashboard.PictureHelpersDiverge | frontend/src/pages/Dashboard.jsx:102 | for a stored name that is not a URL, the dashboard and the shared client point at different addresses |
| Dashboard.BackendPictureShownAsIs | frontend/src/pages/Dashboard.jsx:96-100 | a picture URL the profile route returns is shown as it is by both clients |
| Dashboard.StatusLabel | frontend/src/pages/Dashboard.jsx:422-440 | "Connect", "Request Sent" and "Request Received" each exactly for their status; "Connected" exactly for any other status |
| Dashboard.LabelsTellStatusesApart | frontend/src/pages/Dashboard.jsx:422-440 | two statuses the buddy routes report get the same label exactly when they are equal, and "Connected" exactly for "connected" |
| Dashboard.MarkRequested | frontend/src/pages/Dashboard.jsx:228-242 | same length and order; every card of the buddy gets status "request_sent", every other card is unchanged |
| Dashboard.MarkRequestedSettles | frontend/src/pages/Dashboard.jsx:228-242 | marking twice is marking once, and afterwards the buddy's cards read "Request Sent" |
| Dashboard.ProfileFetchError | frontend/src/pages/Dashboard.jsx:142-155 | the catch branches: no error exactly after success, a 404 or a recognised cancellation (`Aborted`, which as written is never raised: see Findings); the session text after a 401; a shown error is never empty |
| Dashboard.CanceledErrorStaysAsWritten | frontend/src/pages/Dashboard.jsx:143-153 | the error axios rejects an abort with passes the `AbortError` test and is shown as "canceled", and a later successful fetch leaves it there |
| Dashboard.LatestFetchDecidesError | frontend/src/pages/Dashboard.jsx:108-160 | with the cancellation recognised, the error after two overlapping fetches is the later fetch's own |
| Dashboard.ConnectAlert | frontend/src/pages/Dashboard.jsx:245-248 | the success text after a sent request, the body's error when there is one, else the default text; never empty |
| Dashboard.FormInterests | frontend/src/pages/Dashboard.jsx:134-136 | a one-item list shows that item; a text value shows that text, or "" when missing |
| Dashboard.FormFrom | frontend/src/pages/Dashboard.jsx:131-139 | without a profile the empty form; otherwise each field from the profile, "" where missing |
| Dashboard.EditedInterestsGrow | frontend/src/pages/Dashboard.jsx:134-136 | saving stored interests with a comma unchanged lengthens them: the route splits without stripping and the form joins with ", " |
| Dashboard.TwoInterestsGainASpace | frontend/src/pages/Dashboard.jsx:134-136 | "a, b" is offered for editing as a different text |
| Dashboard.FormInterestsKept | frontend/src/pages/Dashboard.jsx:134-136 | the corrected join: a text value shows that text |
| Dashboard.KeptInterestsRoundTrip | frontend/src/pages/Dashboard.jsx:134-136 | joined with ",", the interests the route returns give back exactly the stored text |
| Dashboard.ChallengesAfter | frontend/src/pages/Dashboard.jsx:194-220 | the fetched challenges, or exactly one fallback challenge "fallback-1" |
| Dashboard.DashboardState.BeginFetchProfile | frontend/src/pages/Dashboard.jsx:110-112 | loading, no error, and a load attempted; nothing else changes |
| Dashboard.DashboardState.SettleProfile | frontend/src/pages/Dashboard.jsx:125-159 | success exactly for a body or a 404; a body sets the profile and the edit form; a 401 logs out; the error is set as ProfileFetchError says and otherwise kept; loading ends |
| Dashboard.DashboardState.FetchProfile | frontend/src/pages/Dashboard.jsx:108-160 | success exactly for a body or a 404; a body sets the profile and the edit form; a 401 logs out; the error as ProfileFetchError; loading ends |
| Dashboard.DashboardState.OverlappingFetchProfile | frontend/src/pages/Dashboard.jsx:114-123 | a later fetch clears the error and aborts an earlier one, which settles first: success follows the later fetch, and the error is the earlier settlement's error unless the later one sets its own |
| Dashboard.DashboardState.FetchBuddies | frontend/src/pages/Dashboard.jsx:163-191 | only a fetched list replaces the recommended or the full buddy list; nothing else changes |
| Dashboard.DashboardState.FetchChallenges | frontend/src/pages/Dashboard.jsx:194-220 | always reports success; the challenges become ChallengesAfter of the outcome |
| Dashboard.DashboardState.LoadDashboardData | frontend/src/pages/Dashboard.jsx:253-272 | the other lists load and the initial load completes only when the profile fetch succeeded |
| Dashboard.DashboardState.ConnectBuddy | frontend/src/pages/Dashboard.jsx:223-250 | a sent request marks the buddy in both lists, a failure changes neither; the alert as ConnectAlert |
| Dashboard.OnResponseError | frontend/src/pages/Dashboard.jsx:14-25 | a 401 removes "user" and "token" and always sends the browser to "/login"; other errors change nothing |
| BuddiesTab.ConnectError | frontend/src/components/BuddiesTab.jsx:30-41 | no error exactly for a successful answer; a failed answer shows its own message when it is non-empty, else "Failed to send connection request"; an error response shows its body's message when non-empty, else "Failed to connect. Please try again." |
| BuddiesTab.ResponseOf | backend/routes/buddies.py:379-443 | the connect route's reply reaches the tab as an answer exactly for a 200; any other status arrives as an exception |
| BuddiesTab.RefusalReasonNotShown | frontend/src/components/BuddiesTab.jsx:39-41 | a 4xx refusal of the connect route shows "Failed to connect. Please try again.", because its reason travels as `error`, not `message` |
| BuddiesTab.AcceptedRequestLeavesNoError | frontend/src/components/BuddiesTab.jsx:30-36 | a 200 from the connect route leaves no error |
| BuddiesTab.ButtonFor | frontend/src/components/BuddiesTab.jsx:156-199 | Message in the connected tab; elsewhere Message, Request Sent and Request Received each exactly for their status; a Connect button is disabled exactly while its buddy is being connected to |
| BuddiesTab.ConnectOfferedOnlyToStrangers | frontend/src/components/BuddiesTab.jsx:156-199 | a Connect button appears exactly outside the connected tab for a buddy whose status is `not_connected` |
| BuddiesTab.TabState.BeginConnect | frontend/src/components/BuddiesTab.jsx:23-24 | the id joins the connecting set and the error is cleared, so that buddy's Connect button is disabled |
| BuddiesTab.TabState.FinishConnect | frontend/src/components/BuddiesTab.jsx:30-48 | success asks for a refresh, anything else records ConnectError; the id, and only it, leaves the connecting set |
| BuddiesTab.TabState.HandleConnect | frontend/src/components/BuddiesTab.jsx:22-49 | from click to settlement: the error becomes ConnectError of the response and the connecting set loses the id |
| BuddiesTab.TabState.HandleRequestAction | frontend/src/components/BuddiesTab.jsx:52-76 | a successful answer asks for a refresh; an exception records the action's fixed text; an unsuccessful answer changes nothing |
| BuddiesTab.TabState.SwitchTab | frontend/src/components/BuddiesTab.jsx:295-298 | the chosen tab opens and the connection error is cleared |
| MessagesPage.ChatId | frontend/src/components/MessagesPage.jsx:45 | the partner's user id when it is set and not 0, otherwise the entry id |
| MessagesPage.ConversationOpensOnPartner | frontend/src/components/MessagesPage.jsx:45 | a conversation entry of the chat routes with a non-zero partner id is opened on that id |
| MessagesPage.Formatted | frontend/src/components/MessagesPage.jsx:47-55 | the same messages, each labelled with its sender's name, in ascending time order: as many, sorted, and a permutation of the labelled list |
| MessagesPage.FormattedMessagesNamed | frontend/src/components/MessagesPage.jsx:48-53 | every shown message is a fetched one with its sender's name, own messages carrying the own name |
| MessagesPage.ReplaceId | frontend/src/components/MessagesPage.jsx:90-92 | same length; every entry with the temporary id, and only those, becomes the reply; the others are kept |
| MessagesPage.FinishAsWritten | frontend/src/components/MessagesPage.jsx:90-92 | as written: the window keeps its length, with the reply body in the place of every entry with the temporary id |
| MessagesPage.SentTextLostAsWritten | frontend/src/components/MessagesPage.jsx:90-92 | as written, the temporary message's place holds the route's reply body, and no shown message has the temporary id any more (the reply body comes from backend/routes/chat.py:181-185) |
| MessagesPage.FirstMessageShownEmpty | frontend/src/components/MessagesPage.jsx:90-92 | as written, "hi" sent in an empty chat leaves one bubble holding only `{success, message, message_id}` |
| MessagesPage.ReplyTakesTheTempPlace | frontend/src/components/MessagesPage.jsx:82-92 | corrected: when no earlier message has the temporary id, sending ends with the earlier messages followed by the sent message, with its text and sender kept and the database id from the reply |
| MessagesPage.ConversationsSorted | frontend/src/components/MessagesPage.jsx:217-221 | a permutation of the conversations with the newest last message first, none counting as the epoch |
| MessagesPage.SilentConversationsLast | frontend/src/components/MessagesPage.jsx:217-221 | a conversation without messages comes after every conversation with a message after the epoch |
| MessagesPage.ChatWindow.FetchMessages | frontend/src/components/MessagesPage.jsx:42-59 | a fetched list replaces the messages by its formatted form; otherwise nothing changes |
| MessagesPage.ChatWindow.BeginSend | frontend/src/components/MessagesPage.jsx:71-83 | a blank text changes nothing; otherwise one temporary message with the text is appended, the input cleared and sending begins |
| MessagesPage.ChatWindow.FinishSend | frontend/src/components/MessagesPage.jsx:86-97 | corrected: on a reply, the temporary message becomes the sent message under the database id the reply names; when the call throws it stays; sending ends |
| MessagesPage.ChatWindow.KeyPress | frontend/src/components/MessagesPage.jsx:100-105 | Enter without Shift sends a non-blank text; any other key changes nothing |
| AuthSession.OrDefault | frontend/src/AuthContext.jsx:83 | never empty; a non-empty text is kept, anything else becomes the fallback |
| AuthSession.Outcome | frontend/src/AuthContext.jsx:39-70 | a refused call throws the body's error or the default; a network error on the call throws its message or the default, and so does one on the `/me` refetch after a successful call; two answered calls return the success value; a thrown message is never empty |
| AuthSession.UserAfter | frontend/src/AuthContext.jsx:56-64 | after two successful calls the user is the `/me` body; otherwise it changes only after two successful calls |
| AuthSession.ThrownLeavesUser | frontend/src/AuthContext.jsx:39-143 | an operation that throws leaves the user as it was |
| AuthSession.RefusalMessagePassedOn | frontend/src/AuthContext.jsx:81-84 | a refusal of the auth routes reaches the caller as its own non-empty text |
| AuthSession.Session.constructor | frontend/src/AuthContext.jsx:8-9 | no user, and loading |
| AuthSession.Session.CheckSession | frontend/src/AuthContext.jsx:11-36 | an ok `/me` signs the user in; any other answer or a network error signs them out; loading ends |
| AuthSession.Session.Perform | frontend/src/AuthContext.jsx:39-143 | the result is Outcome of the two calls and the user becomes UserAfter; loading is untouched |
| AuthSession.Session.Signup | frontend/src/AuthContext.jsx:39-70 | returns the whole sign-up body (error, message and user) on success; throws with "Signup failed" as the default |
| AuthSession.Session.Login | frontend/src/AuthContext.jsx:72-100 | returns true on success, throws with "Login failed" as the default |
| AuthSession.Session.UpdateProfile | frontend/src/AuthContext.jsx:116-143 | returns true on success, throws with "Profile update failed" as the default |
| AuthSession.Session.Logout | frontend/src/AuthContext.jsx:102-114 | the user is cleared whether or not the request got through |
| ForgotResetPassword.ValidatePassword | frontend/src/pages/ForgotResetPassword.jsx:5-21 | "" exactly for a password of at least six characters with an upper-case letter, a lower-case letter and a digit; otherwise the message of the first failing check, in that order |
| ForgotResetPassword.ResetBlocker | frontend/src/pages/ForgotResetPassword.jsx:127-138 | nothing blocks exactly when the password is strong and equals its confirmation; the rule's message first, then the mismatch |
| ForgotResetPassword.RuleCheckedBeforeMatch | frontend/src/pages/ForgotResetPassword.jsx:127-138 | a weak password is never reported as a mismatch |
| ForgotResetPassword.DigitsOf | frontend/src/pages/ForgotResetPassword.jsx:212 | only digits remain, and every digit of the input remains |
| ForgotResetPassword.DigitsOfCounts | frontend/src/pages/ForgotResetPassword.jsx:212 | each digit is kept exactly as often as it occurs in the input |
| ForgotResetPassword.DigitsOfConcat | frontend/src/pages/ForgotResetPassword.jsx:212 | the digits of a text are those of its first part followed by those of the rest, so their order is kept |
| ForgotResetPassword.DigitsOfDigits | frontend/src/pages/ForgotResetPassword.jsx:212 | text made of digits is kept as it is |
| ForgotResetPassword.CodeField | frontend/src/pages/ForgotResetPassword.jsx:207-212 | at most six characters, all digits, so the trim before verifying changes nothing |
| ForgotResetPassword.SixDigitsKept | frontend/src/pages/ForgotResetPassword.jsx:207-212 | typing a six-digit code fills the field with exactly that code |
| ForgotResetPassword.SendError | frontend/src/pages/ForgotResetPassword.jsx:44-54 | a refused code request shows the body's error or a non-empty default |
| ForgotResetPassword.CheckError | frontend/src/pages/ForgotResetPassword.jsx:92-99 | never empty; the body's error or the default, and the server-error text when no answer came |
| ForgotResetPassword.ResetFlow.constructor | frontend/src/pages/ForgotResetPassword.jsx:25-33 | the forgot step, empty texts, not loading, no cooldown |
| ForgotResetPassword.ResetFlow.HandleForgot | frontend/src/pages/ForgotResetPassword.jsx:56-72 | a sent code moves to verification with its message and a 30-second cooldown; a failure keeps the step and shows SendError |
| ForgotResetPassword.ResetFlow.HandleVerify | frontend/src/pages/ForgotResetPassword.jsx:74-103 | an accepted code moves to the new-password step; a refused one keeps the step and shows CheckError |
| ForgotResetPassword.ResetFlow.HandleResend | frontend/src/pages/ForgotResetPassword.jsx:105-118 | a sent code restarts the 30-second cooldown; a failure shows SendError; the step stays |
| ForgotResetPassword.ResetFlow.HandleReset | frontend/src/pages/ForgotResetPassword.jsx:120-167 | the reset is sent exactly when nothing blocks it; a blocker is shown as the error; otherwise the answer decides success text or CheckError |
| ForgotResetPassword.ResetFlow.Tick | frontend/src/pages/ForgotResetPassword.jsx:36-41 | the cooldown counts down by one and stops at 0; nothing else changes |
| ForgotResetPassword.ResetFlow.TypeCode | frontend/src/pages/ForgotResetPassword.jsx:212 | the code becomes the code field's form of the typed text |
| ForgotResetPassword.CooldownEnds | frontend/src/pages/ForgotResetPassword.jsx:36-41 | thirty ticks bring the timer to 0 and enable resending once loading is over (also line 227) |
| SignUp.EmailCheckMatchesPattern | frontend/src/pages/Sign_up.jsx:34 | the position scan accepts exactly the texts the e-mail pattern matches: one '@' after a non-empty start, a '.' inside the domain, no white space (also line 37) |
| SignUp.ResetRuleIsStricter | frontend/src/pages/Sign_up.jsx:33 | a one-line password the reset form accepts also passes sign-up (also line 38) |
| SignUp.SignupNeedsNoDigit | frontend/src/pages/Sign_up.jsx:33 | "Abcdef" passes sign-up although the reset form refuses it for lacking a digit |
| SignUp.TrimmedPasswordCanBreakRule | frontend/src/pages/Sign_up.jsx:38 | " Abcd " passes the check as typed, but is sent as "Abcd", which fails it (also line 59) |
| SignUp.ValidateForm | frontend/src/pages/Sign_up.jsx:31-45 | each field's error is set exactly when its own check fails: blank username, e-mail not matching, password rule, differing confirmation; no submit error |
| SignUp.RouteError | frontend/src/pages/Sign_up.jsx:63-73 | some error is always shown: a duplicate username or e-mail on its own field only, the missing fields on the form, any other message as it is |
| SignUp.EmailTakenShownOnField | frontend/src/pages/Sign_up.jsx:67-68 | the server's 409 "Email already registered" ends up on the e-mail field alone |
| SignUp.UsernameTakenShownOnField | frontend/src/pages/Sign_up.jsx:65-66 | the server's 409 "Username already exists" ends up on the username field alone |
| SignUp.ThrownMessageShown | frontend/src/pages/Sign_up.jsx:71-73 | any other thrown sign-up message is shown on the form as it is, never the page's default |
| SignUp.SignupPage.constructor | frontend/src/pages/Sign_up.jsx:9-17 | an empty form, no errors, not loading, no message |
| SignUp.SignupPage.ChangeUsername | frontend/src/pages/Sign_up.jsx:19-29 | the username is stored; its error and the submit error are cleared; nothing else changes |
| SignUp.SignupPage.ChangeEmail | frontend/src/pages/Sign_up.jsx:19-29 | the e-mail is stored; its error and the submit error are cleared; nothing else changes |
| SignUp.SignupPage.ChangePassword | frontend/src/pages/Sign_up.jsx:19-29 | the password is stored; its error and the submit error are cleared; nothing else changes |
| SignUp.SignupPage.ChangeConfirmPassword | frontend/src/pages/Sign_up.jsx:19-29 | the confirmation is stored; its error and the submit error are cleared; nothing else changes |
| SignUp.SignupPage.HandleSubmit | frontend/src/pages/Sign_up.jsx:47-77 | sends exactly when validation finds nothing, and then sends the trimmed fields; success empties the form with its message, a failure shows RouteError |
| SignUp.SignupPage.Settle | frontend/src/pages/Sign_up.jsx:54-76 | success shows the message and empties the form; a thrown error is routed and the form kept; loading ends |
| ProfilePage.FormOf | frontend/src/pages/Profile.jsx:36-46 | each text from the profile, "" where missing; the interests as the edit form shows them; the level, or "Beginner"; no file chosen |
| ProfilePage.NoProfileGivesInitialForm | frontend/src/pages/Profile.jsx:36-46 | a user without a stored profile gets the form the page opens with |
| ProfilePage.StoredProfileFillsForm | frontend/src/pages/Profile.jsx:36-46 | a stored profile fills bio, specialization, schedule and a set level as stored |
| ProfilePage.FormParts | frontend/src/pages/Profile.jsx:77-86 | the five text fields in order, then the picture as "profilePic" exactly when a file was chosen |
| ProfilePage.PartsReachServer | frontend/src/pages/Profile.jsx:77-86 | every text part reaches the server under its name with its text, and a file part is sent exactly when a file was chosen |
| ProfilePage.ServerSeesWholeForm | frontend/src/pages/Profile.jsx:77-86 | the route reads the body as form data holding all five fields, never as empty |
| ProfilePage.ChooseMethod | frontend/src/pages/Profile.jsx:94-105 | PUT exactly for an ok check showing a bio, a specialization or some interests; POST otherwise |
| ProfilePage.BlankProfileIsPosted | frontend/src/pages/Profile.jsx:94-105 | a stored profile without bio, specialization or interests is saved with POST although it exists |
| ProfilePage.EmptyFirstSaveStoresBlankProfile | frontend/src/pages/Profile.jsx:94-105 | saving the opening form stores such a blank profile, so the next save is a POST too |
| ProfilePage.SaveAsWritten | frontend/src/pages/Profile.jsx:88-113 | for an existing blank profile the save is answered 400 "Profile already exists" and nothing is stored |
| ProfilePage.SaveCorrected | frontend/src/pages/Profile.jsx:88-113 | always PUT: never refused as existing, and without a database error the profile is stored (200 or 201) |
| ProfilePage.SaveError | frontend/src/pages/Profile.jsx:128-134 | never empty; the JSON body's error, else "Failed to save profile", and the retry text for a body that is not JSON |
| ProfilePage.ProfileEditor.constructor | frontend/src/pages/Profile.jsx:9-20 | the opening form, no preview, loading, no messages |
| ProfilePage.ProfileEditor.Load | frontend/src/pages/Profile.jsx:23-55 | a fetched profile fills the form and the preview; anything else leaves both; loading ends |
| ProfilePage.ProfileEditor.ChooseFile | frontend/src/pages/Profile.jsx:58-69 | a previous blob preview is released; the chosen file, or none, goes into the form and the preview follows it |
| ProfilePage.ProfileEditor.HandleSubmit | frontend/src/pages/Profile.jsx:72-140 | no answer to the check sends nothing; otherwise the parts go with ChooseMethod; success shows the saved message and calls the session's `updateProfile()` once (counted in `refreshes`; that call is refused, see Findings), a refusal shows SaveError, no answer the fixed error |
| ProfilePage.RefreshAsWritten | frontend/src/pages/Profile.jsx:119-121 | `updateProfile()` with no form data sends a PUT with no content type; the route answers 415 with or without a profile (backend/routes/profile.py:102-105), the call throws that text, the user and the stored profiles are unchanged (also frontend/src/AuthContext.jsx:116-143) |
| ProfilePage.RefreshCorrected | frontend/src/pages/Profile.jsx:118-121 | the intended refresh: an ok `/me` answer becomes the signed-in user, anything else leaves it (also frontend/src/AuthContext.jsx:129-137) |
| ProfilePage.ServerPictureNeverRevoked | frontend/src/pages/Profile.jsx:47 | the stored picture shown on opening is a server URL, never released as a blob preview (also lines 59-61) |
| ActivityFeed.MinutesOfSeconds | frontend/src/components/ActivityFeed.jsx:32-35 | whole minutes counted from whole seconds equal the whole minutes of the milliseconds |
| ActivityFeed.HoursOfMinutes | frontend/src/components/ActivityFeed.jsx:35-37 | whole hours counted from whole minutes equal the whole hours of the milliseconds |
| ActivityFeed.RelativeTime | frontend/src/components/ActivityFeed.jsx:29-40 | "just now" under a minute (future times included); 1 to 59 whole minutes under an hour; 1 to 23 whole hours under a day; the locale date from a day on |
| ActivityFeed.Fallback | frontend/src/components/ActivityFeed.jsx:77-96 | three demonstration entries, two, five and twenty-four hours old |
| ActivityFeed.FallbackAges | frontend/src/components/ActivityFeed.jsx:29-40 | right after they are installed the entries read "2 hr ago", "5 hr ago" and yesterday's date (also lines 77-96) |
| ActivityFeed.Feed.constructor | frontend/src/components/ActivityFeed.jsx:6-9 | no entries, loading, no user, an empty challenge |
| ActivityFeed.Feed.FetchActivities | frontend/src/components/ActivityFeed.jsx:65-100 | a successful answer replaces the list (missing: empty) and the user; an unsuccessful one changes neither; no answer installs the fallback; loading ends |
| ActivityFeed.Feed.PostChallenge | frontend/src/components/ActivityFeed.jsx:43-62 | sent exactly for a non-blank challenge; a successful post puts one shared-challenge entry in front of the unchanged list and clears the input; otherwise nothing changes |

## Left out

- The HTTP transport, the database engine and the file system. Requests are inputs. Tables are sequences and maps.
- A database failure is modelled only where a member takes it as a parameter: `MessageStorage.StoreMessage` and `MessageRetention.CleanupOldMessages` / `SetMessageExpiry` (a flag that rolls back), `MessageStorage.GetRecentMessages` (a failed query), `ProfileRoutes.CreateProfile` / `UpdateProfile` (the error text answered with 500), and `Auth.ResetCodes.ForgotPassword` (a mail failure). The `except` branches that roll back and answer 500 in backend/routes/auth.py, buddies.py, chat.py, notifications.py, admin.py and personalized_challenges.py are not modelled: in this model their database steps always succeed.
- Threads, timers and polling:
  - the retention service's start/stop/run loop (backend/services/message_retention.py:13-35);
  - the chat polling interval;
  - every `setTimeout` redirect;
  - the AbortController objects themselves. Only what a cancelled fetch leaves behind is modelled (`Dashboard.DashboardState.OverlappingFetchProfile`), with the cancellation recognised; see Findings for what the source does.
  One cooldown tick is a method (`ForgotResetPassword.ResetFlow.Tick`).
- Clocks and randomness are parameters: the current time, `random.randint` / `random.choices` draws, `Date.now()`, and the activity feed's random quotes. Back-end times are whole seconds; client times are milliseconds.
- Date formatting: ISO timestamps are integers, and the browser's locale date string is a parameter of `ActivityFeed.RelativeTime`.
- Floating point. Compatibility scores are computed on exact rationals, with Python's `round` as round-half-even. Binary float error is not modelled.
- `calculate_level` uses the integer characterisation of `floor(sqrt(xp / 100))`, not `math.sqrt`.
- JavaScript's `\s` and Python's `str.strip()` are modelled as ASCII white space. Unicode spaces, case folding beyond ASCII, and `encodeURIComponent` of anything but ASCII letters are not modelled.
- `bcrypt` hashing and checking are a pair of parameters. `secure_filename` is a parameter. Sending mail is a flag.
- `User.is_admin` and `User.is_active` are not columns in backend/models.py. `Message` and `Notification` are not defined there. All of them are modelled as plain record fields.
- `login_required` guards, the OPTIONS preflight answers of the admin routes, the client's route guards, and Flask application wiring (blueprints, CORS, error handlers, admin seeding).
- backend/routes/auth.py `/me` (lines 12-22) and `/logout` (lines 84-88) only echo the session or end it.
- The second mark-read handler (backend/routes/notifications.py:109-128) behaves like the first and is not modelled twice.
- `get_all_buddies` (backend/routes/buddies.py:127-153) only combines the three listings, which are modelled one by one.
- `create_connection_notification`'s own rollback-and-print path is not modelled.
- The JSON `data` payload of notifications is not modelled.
- `delete_user` removes the user row and its profile. What the database does to other tables' rows pointing at the user is not modelled.
- Of the `overview` route (backend/routes/overview.py:11-78), only its statistics and recommendations are modelled. The activity, study-group and challenge lists it formats are not.
- Overview.CalculateStreak takes the activities as a sequence. The source passes a dynamic query object, whose `len()` is not modelled.
- The dashboard's profile-edit modal submit (`handleProfileUpdate`) and its rendering are not modelled.
- The activity feed's titles and icons are not modelled; they are rendering only.
- ProfilePage.ProfileEditor.HandleSubmit: the session's `updateProfile()` after a save is only counted in `refreshes`; what that call does (a 415 refusal that leaves the user as it was, and is not awaited) is stated by ProfilePage.RefreshAsWritten.
- The `loading` flag of `Dashboard.DashboardState.FetchBuddies` and `FetchChallenges` is not modelled (the source has separate flags for them).
- Thin query and demonstration-data routes (challenges, groups, activities), the token-refresh service, and rendering-only components are not part of this model.
- ActivityFeed.Feed.FetchActivities and ActivityFeed.Feed.PostChallenge take the server's answer as input. Routing is not modelled. As backend/app.py:102-106 registers the blueprints, GET /api/activities has no handler (the activities route sits at /api/activities/api/activities, backend/routes/activities.py:27), and neither does POST /api/challenges. So in the deployed program the feed always shows the fallback list and a posted challenge always fails.
- Database ids are unique because every insert takes the next counter value, but `Models.Database.Valid` states only that every id is below its counter, not that ids are distinct.
- Buddies.ConnectedEntries: its own contract states only that every card is sound. That every qualifying row gets a card is proved separately, in Buddies.ConnectedEntriesComplete, because stating both directions in the recursive function's own contract makes the solver loop. Buddies.ConnectedBuddies states both directions.
- ProfileRoutes.Column: a JSON list sent for a field other than `interests` is stored as its items joined with ", ". The source assigns the list itself to the text column, so the commit fails and the route answers 500; that failure is not modelled.
- Sorting.SortDesc and Sorting.SortAsc keep equal keys in input order, as Python's and JavaScript's sorts do, but that stability is not stated in their contracts.

## Findings

| source | as written | input that shows it | evidently intended | confidence | as-written member | corrected member |
|---|---|---|---|---|---|---|
| frontend/src/pages/Profile.jsx:94-105 | the save uses PUT only when the stored profile has a bio, a specialization or interests, and POST otherwise; the create route answers 400 "Profile already exists" to a POST for an existing profile | a new user saves the opening form with every field empty, then saves again | an existing profile is always updated, so a later save succeeds | not executed | ProfilePage.SaveAsWritten (with ProfilePage.EmptyFirstSaveStoresBlankProfile) | ProfilePage.SaveCorrected |
| frontend/src/pages/Dashboard.jsx:134-136 | the edit form joins the interests the profile route returns with ", "; the route splits the stored text at "," without stripping, so each save adds one space after every comma | stored interests "a, b" come back as ["a", " b"] and are offered for editing as "a,  b" | saving the form unchanged keeps the stored interests | not executed | Dashboard.EditedInterestsGrow (with Dashboard.TwoInterestsGainASpace) | Dashboard.KeptInterestsRoundTrip |
| frontend/src/components/MessagesPage.jsx:90-92 | the temporary message is replaced by `response.data`, but backend/routes/chat.py:181-185 answers `{success, message, message_id}` and not the message | "hi" sent in an empty chat: the window shows one bubble with no text, sender or time until the next poll refetches the list | the temporary message stays in place with its text and takes the database id `message_id` | not executed | MessagesPage.FinishAsWritten (with MessagesPage.SentTextLostAsWritten and MessagesPage.FirstMessageShownEmpty) | MessagesPage.ChatWindow.FinishSend (with MessagesPage.ReplyTakesTheTempPlace) |
| frontend/src/pages/Profile.jsx:119-121 | after a successful save the page calls the session's `updateProfile()` with no argument; its PUT then has no body and no content type, which backend/routes/profile.py:102-105 refuses with 415, so the promise rejects (unawaited) and the signed-in user is never refreshed | any successful save: the refresh PUT gets 415 "Unsupported media type..." and `user` keeps its old value | the session's user is refetched from `/api/auth/me` after the save | not executed | ProfilePage.RefreshAsWritten | ProfilePage.RefreshCorrected |
| frontend/src/pages/Dashboard.jsx:143 | the catch skips its error handling only for an error named "AbortError"; `api` is an axios instance (frontend/src/pages/Dashboard.jsx:7-11), which rejects an aborted request with an error named "CanceledError" whose message is "canceled" | `fetchProfile` runs while an earlier call is still pending: the earlier call is aborted, its catch sets the error to "canceled", and the later call's success does not clear it | an aborted call leaves no error, and the error shown is the latest fetch's own | not executed; depends on axios's cancellation error | Dashboard.CanceledErrorStaysAsWritten (with Dashboard.AXIOS_CANCELED) | Dashboard.LatestFetchDecidesError (with Dashboard.DashboardState.OverlappingFetchProfile and the `Aborted` case of Dashboard.ProfileFetchError) |
