# TelegramForwarder core, modelled in Dafny

This project models the core of TelegramForwarder, a bot that forwards messages
between Telegram chats according to forwarding rules. The core covers:

- **The comment-link cache** (`utils/comment_manager.py`, module `CommentLinks`):
  a read-through cache from a channel to its linked discussion group.
  - It keeps one `channel_comment_mappings` row per channel and answers from
    it for 24 hours.
  - On a miss it asks the platform. It raises a flood-wait to the caller and
    writes nothing.
  - It caches a "no group" answer. It creates the group's `chats` row when
    that row is missing.
  - It rolls back and returns `None` when a flush or commit fails.
- **The user client's message handler** (`message_listener.py`, module
  `MessageListener`). It covers:
  - the `not_from_bot` filter;
  - the chat id a message is looked up under, with `100` in front for a
    channel while a setting is awaited;
  - media-group de-duplication, with keys expiring 300 seconds after they
    are set;
  - rule resolution: the chat's own enabled rules first, then the
    comment-forwarding rules of the channel whose discussion group the chat
    is;
  - the cache warm-up;
  - routing each job to the bot or the user client.
- **The schema and session discipline** (`models/models.py`, module `Models`):
  - the rows the core reads;
  - the unique and foreign-key constraints;
  - a session with pending and committed tables: commit, rollback and close;
  - `session_scope`.
- **The info filter** (`filters/info_filter.py`, module `InfoFilter`). It
  computes the comment prefix, the link to the channel post a comment
  answers, the original-message link, the sender line and the time line. It
  writes them into the message context.
- **The settings dispatcher** (`handlers/prompt_handlers.py`, module
  `PromptHandlers`):
  - the awaited-state string selects a rule field or the push-channel action;
  - the message text is stored in the field, and a blank comment prefix
    clears it;
  - the value is copied to the rules the rule syncs with;
  - a push channel adds push configurations to the rule and to its sync
    targets.

The remaining modules are helpers:
- `Text` models the Python string and integer operations the core uses
  (`str(int)`, `int(str)`, `strip`, `replace`, `split`, `startswith`).
- `Wrappers` holds `Option`.

Each operation that updates state in place is modelled twice:
- a function on values (the specification) that the lemmas are about;
- a method or class that does the same step by step, with an `ensures`
  tying it to that function.

Platform answers, flush and commit success, and the clock are parameters.

The model follows the code, except for the handler's cache warm-up (see
"## Findings"), which is modelled as intended. Behaviour worth knowing:
- A private channel, an RPC error or any other query failure returns `None`
  and is not cached. Only a platform answer of "no linked group" is cached
  as a negative result.
- A failed commit rolls back and returns `None`, without reading the row
  again.
- Media-group parts are de-duplicated only while the key is in the processed
  set, which is for 300 seconds.
- Jobs are ordered: every direct job comes before every comment job.
- A settings state naming a rule that does not exist ends the handler with
  `True` and writes nothing (`SetPrompt`).
- A push channel whose commit fails is rolled back, and the handler still
  returns `True` (`AddPushChannel`).

## Model

| member | source | states |
|---|---|---|
| Models.NewRule | models/models.py:29-91 | a new rule carries the schema's column defaults: enabled, via the bot, comment forwarding, context, sync and push off, the default comment prefix |
| Models.FindFirst | models/models.py:17-22 | a `.first()` lookup returns the first matching row, and `None` only when no row matches |
| Models.FindFirstStable | models/models.py:17-22 | a lookup gives the same answer on a table that only grew by non-matching rows |
| Models.RuleIndexById | handlers/prompt_handlers.py:77 | a rule lookup by id finds a rule with that id, and `None` only when no rule has it |
| Models.InsertChat | models/models.py:17-22 | inserting a chat succeeds exactly when its id and telegram id are new; the result appends the row and keeps both unique |
| Models.InsertRule | models/models.py:29-91 | inserting a rule succeeds exactly when its id and its (source, target) pair are new, keeping both constraints |
| Models.TelegramLookupIsOnlyMatch | models/models.py:21 | with unique telegram ids a lookup by telegram id finds the only row holding it |
| Models.Session.constructor | models/models.py:524-529 | a new session sees the committed tables and has nothing pending |
| Models.Session.Stage | models/models.py:516-529 | writes change only the pending tables |
| Models.Session.Commit | models/models.py:534-552 | a commit that goes through makes the pending tables durable; one that fails changes nothing |
| Models.Session.Rollback | models/models.py:548-550 | a rollback drops every uncommitted write |
| Models.Session.Close | models/models.py:551-552 | closing discards uncommitted work and ends the session |
| Models.SessionScope | models/models.py:534-552 | the scope commits exactly when the body completes and the commit goes through; otherwise the committed tables are unchanged; the session is always closed |
| CommentLinks.NextChatId | utils/comment_manager.py:148-156 | the id a new chat row receives is positive and larger than every existing id |
| CommentLinks.UpsertFinds | utils/comment_manager.py:174-194 | after the upsert the channel's row holds the new linked id and check time |
| CommentLinks.UpsertKeepsOneRowPerChannel | utils/comment_manager.py:179-194 | the upsert never adds a second row for a channel |
| CommentLinks.UpsertOthersUnchanged | utils/comment_manager.py:179-194 | the upsert leaves every other channel's row as it was |
| CommentLinks.IsChatIdAppend | models/models.py:17-22 | a chat id stays present when a row is appended |
| CommentLinks.PersistKeepsValid | utils/comment_manager.py:174-206 | storing a mapping between existing chats keeps every table constraint |
| CommentLinks.AddChatKeepsValid | utils/comment_manager.py:148-156 | adding an insertable chat keeps every table constraint and makes its id a chat id |
| CommentLinks.PersistStepKeepsValid | utils/comment_manager.py:174-206 | storing a mapping and committing or rolling back keeps both the pending and the committed tables valid |
| CommentLinks.LinkAndPersistKeepsValid | utils/comment_manager.py:132-172 | finding or creating the linked group's chat row and storing the mapping keeps both tables valid |
| CommentLinks.GetLinkedKeepsTablesValid | utils/comment_manager.py:25-206 | every call, whatever the platform answers and whatever fails, leaves pending and committed tables satisfying the schema |
| CommentLinks.Refresh | utils/comment_manager.py:50-130 | the refresh queries the platform exactly when the channel's chat row exists and has a telegram id that reads as an integer |
| CommentLinks.Persist | utils/comment_manager.py:174-206 | nothing is left pending: a commit returns the linked id and changes only the mapping table; a failed commit rolls back to the committed tables and returns `None` |
| CommentLinks.GetLinked | utils/comment_manager.py:25-48 | channel id 0 returns `None` with no query; without a query, or on a flood wait, nothing is written; any write ends committed or rolled back |
| CommentLinks.RefreshKeepsValid | utils/comment_manager.py:50-172 | a refresh, whatever the platform answers and whatever fails, keeps both tables valid |
| CommentLinks.ZeroChannelIsRejected | utils/comment_manager.py:27-29 | a falsy channel id returns `None` with no read, query or write |
| CommentLinks.FreshRowAnswersFromCache | utils/comment_manager.py:31-45 | a row checked less than 24 hours ago answers with its cached value, possibly `None`, with no query and no write |
| CommentLinks.QueriedIffStale | utils/comment_manager.py:25-72 | the platform is queried exactly when the id is non-zero, the row is missing or stale, and the channel's chat row has an integer telegram id |
| CommentLinks.FloodWaitWritesNothing | utils/comment_manager.py:82-90 | a flood-wait is raised with its waiting time and nothing is written |
| CommentLinks.FailedQueryWritesNothing | utils/comment_manager.py:91-130 | a private channel, an RPC error, any other error or a non-integer linked id returns `None` and writes nothing |
| CommentLinks.NoLinkIsCached | utils/comment_manager.py:114-120 | "no linked group" is committed as one row with a null link and the current time, and `None` is returned |
| CommentLinks.LinkedGroupChatCreated | utils/comment_manager.py:132-206 | a linked group without a chat row gets one new row, keyed by its telegram id, named from the answer, with a fresh id; that id is returned, and the channel's committed cache row holds it and the current time |
| CommentLinks.LinkedGroupChatReused | utils/comment_manager.py:132-137 | a linked group with a chat row creates no chat; that row's id is cached and returned |
| CommentLinks.FailedWriteRollsBack | utils/comment_manager.py:196-206 | on the write path (a stale, queryable channel the platform answered with "no group" or a group), a refused commit rolls back to the committed tables and returns `None` |
| CommentLinks.FailedFlushRollsBack | utils/comment_manager.py:138-164 | a refused flush of the linked group's new chat row rolls back to the committed tables and returns `None`, whatever the commit would do |
| CommentLinks.FailedCommitKeepsCommitted | utils/comment_manager.py:174-206 | on any path a refused commit leaves the committed tables unchanged, and the session untouched or rolled back to them |
| CommentLinks.RepeatWithinTtlHitsCache | utils/comment_manager.py:25-48 | once an answer is stored, any later call within 24 hours returns it with no query and no write, whatever the platform would say |
| CommentLinks.StoredRowAnswers | utils/comment_manager.py:31-45 | a row stored at `now` answers every call less than 24 hours later with its value, with no query and no write |
| CommentLinks.CommentManager.constructor | utils/comment_manager.py:21-23 | the manager holds the session it is given |
| CommentLinks.CommentManager.GetLinkedChatId | utils/comment_manager.py:25-48 | the outcome and the session's tables afterwards are those `GetLinked` gives |
| CommentLinks.CommentManager.FetchAndUpdate | utils/comment_manager.py:50-172 | the outcome and the session's tables afterwards are those `Refresh` gives |
| CommentLinks.CommentManager.PersistMapping | utils/comment_manager.py:174-206 | the outcome and the session's tables afterwards are those `Persist` gives |
| MessageListener.NotFromBot | message_listener.py:44-56 | with the bot's id unknown everything passes; a missing or unconvertible sender passes; a sender that converts passes exactly when it differs from the bot's id |
| MessageListener.BotTextIdRejected | message_listener.py:48-54 | the bot's id also rejects the message when it arrives as decimal text |
| MessageListener.MarkChannelId | message_listener.py:85 | the channel form of an id reads as `100` followed by the id |
| MessageListener.ListenerChatId | message_listener.py:76-89 | the lookup id is the absolute platform id, with `100` in front exactly for a channel while a setting is awaited |
| MessageListener.GroupKeyInjective | message_listener.py:109 | two parts share a group key exactly when they have the same chat and group id |
| MessageListener.RepeatPartsDropped | message_listener.py:107-114 | after a group part passes, every later part of that group from that chat within 300 seconds is dropped, and the first after that passes |
| MessageListener.Admit | message_listener.py:107-114 | a message passes exactly when it is outside a group or its group key is not live; a dropped one leaves the set as it was; a passed group part makes its key live; no key is removed |
| MessageListener.AdmitOthersUnaffected | message_listener.py:107-114 | admitting a part changes how no other chat's or group's part is judged |
| MessageListener.FireTimerKeepsLive | message_listener.py:273-276 | a timer firing at its due time leaves the processed set, as seen from then on, unchanged |
| MessageListener.FireTimer | message_listener.py:273-276 | the timer removes at most its own key, only once due, and changes no other entry |
| MessageListener.DirectJobs | message_listener.py:133-154 | every direct job is an enabled rule of the chat with no parent channel, and every such rule has its job |
| MessageListener.CommentJobs | message_listener.py:168-187 | every comment job is an enabled comment-forwarding rule of the channel tagged with the channel and its telegram id, and every such rule has its job |
| MessageListener.DirectIndicesSelect | message_listener.py:133-138 | the direct positions are strictly increasing and are exactly the positions of the chat's enabled rules |
| MessageListener.CommentIndicesSelect | message_listener.py:168-174 | the comment positions are strictly increasing and are exactly the positions of the channel's enabled comment-forwarding rules |
| MessageListener.DirectJobsInRuleOrder | message_listener.py:133-154 | the `i`-th direct job is the rule at the `i`-th direct position: the jobs follow the query's rows one for one, in order |
| MessageListener.CommentJobsInRuleOrder | message_listener.py:168-187 | the `i`-th comment job is the rule at the `i`-th comment position, tagged with the channel and its telegram id |
| MessageListener.CommentPart | message_listener.py:160-187 | without a mapping whose group is the chat, or without comment rules for its channel, there are no comment jobs; the handler fails exactly when the channel has comment rules and its chat row's telegram id does not convert; otherwise the jobs are the channel's comment jobs carrying the converted id, or none without a chat row |
| MessageListener.DirectJobsFirst | message_listener.py:129-187 | every direct job is an enabled rule of the chat and every such rule has its job; all direct jobs come before all comment jobs |
| MessageListener.DirectThenComment | message_listener.py:129-187 | the direct jobs followed by any comment jobs list the chat's enabled rules first, each as a non-comment job |
| MessageListener.Resolve | message_listener.py:129-194 | without a comment-forwarding direct job nothing is written; otherwise the committed tables are unchanged or the session ends committed or rolled back; the job list starts with the direct jobs |
| MessageListener.CommentJobsFromMapping | message_listener.py:160-187 | comment jobs come from the first mapping naming the chat as discussion group, in the tables the warm-up left, and cover that channel's comment rules |
| MessageListener.CommentsAppended | message_listener.py:160-187 | after non-comment jobs, the appended jobs are the comment rules of the channel the mapping names |
| MessageListener.CommentPartReads | message_listener.py:160-187 | the comment part depends only on the rules, the chat's mapping and the channel's chat row |
| MessageListener.CommentPartStable | message_listener.py:160-187 | writes that keep rules and the chat's mappings leave the comment part unchanged |
| MessageListener.UpsertKeepsResolution | message_listener.py:141-147 | a cache upsert for the chat that does not link it to itself, with at most one new chat, keeps resolution unchanged |
| MessageListener.WarmUpKeepsResolution | message_listener.py:141-147 | whatever the platform answers and whatever fails, the warm-up leaves rule resolution for the chat unchanged |
| MessageListener.WarmUpLinkedKeepsResolution | message_listener.py:141-147 | the warm-up that finds a linked group leaves rule resolution for the chat unchanged |
| MessageListener.WarmUpKeepsJobs | message_listener.py:141-147 | the job list with the intended warm-up equals the job list with the warm-up as written |
| MessageListener.WarmUpAsWrittenNeverCaches | message_listener.py:144 | as written, the warm-up leaves a stale cache row stale; the intended call stores the "no group" answer |
| MessageListener.Dispatches | message_listener.py:203-225 | one call per job in order: the bot client for `use_bot`, the user client otherwise; comment metadata with the parent's telegram id only for comment jobs |
| MessageListener.UnknownChatDispatchesNothing | message_listener.py:117-125 | without a chat row for the id nothing is dispatched and nothing is written |
| MessageListener.RepeatedPartReadsNothing | message_listener.py:107-111 | a repeated group part returns before any read: no dispatch, no write, processed set unchanged |
| MessageListener.Handle | message_listener.py:95-114 | a consumed prompt ends the handler, and only then; a repeated group part ends it exactly when it is not admitted; those two endings and an unknown chat write nothing, and the first two leave the processed set as it was |
| MessageListener.HandleChat | message_listener.py:116-230 | the chat is unknown exactly when no chat row has the id, and then nothing is written; a dispatch has at least one job |
| MessageListener.HandleKeepsTablesValid | message_listener.py:72-230 | handling a message keeps every table constraint on the committed tables |
| MessageListener.ResolveKeepsTablesValid | message_listener.py:129-194 | rule resolution, warm-up included, leaves valid committed tables |
| MessageListener.HandleChatKeepsTablesValid | message_listener.py:116-230 | handling a message for a chat id leaves valid committed tables |
| MessageListener.CollectDirect | message_listener.py:133-154 | the loop builds the direct jobs and whether any forwards comments |
| MessageListener.CollectComment | message_listener.py:168-187 | the loop builds the comment jobs |
| MessageListener.PlanDispatches | message_listener.py:203-225 | the loop builds the dispatches |
| MessageListener.CollectCommentPart | message_listener.py:160-187 | the lookup returns the comment part |
| MessageListener.ResolveInSession | message_listener.py:129-194 | in the handler's session, the resolution and the session state left are `Resolve`'s |
| MessageListener.HandleChatInSession | message_listener.py:116-230 | the outcome and committed tables are `HandleChat`'s |
| MessageListener.MessageListener.constructor | message_listener.py:21 | the processed set starts empty |
| MessageListener.MessageListener.ClearGroupCache | message_listener.py:273-276 | the timer firing updates the processed set as `FireTimer` says |
| MessageListener.MessageListener.HandleUserMessage | message_listener.py:72-230 | the outcome, processed set and committed tables are `Handle`'s |
| InfoFilter.CommentPrefix | filters/info_filter.py:33-38 | the prefix is non-empty exactly for a comment under a rule forwarding comments; it is then the rule's prefix when that is non-empty, the default prefix otherwise, followed by a blank line |
| InfoFilter.LinkOfMarkedChannel | filters/info_filter.py:53 | the original link of a channel message names the channel's own id, the `-100` mark dropped |
| InfoFilter.MarkedIdText | filters/info_filter.py:53 | dropping four characters from a marked channel id's text leaves the channel id |
| InfoFilter.PersonName | filters/info_filter.py:89-92 | a person's name is the first and last name (a missing one empty) joined by a space and stripped, so empty or starting and ending with non-space |
| InfoFilter.NamelessPersonHasEmptyName | filters/info_filter.py:89-92 | a person without first and last name has an empty name |
| InfoFilter.NameTemplateOrder | filters/info_filter.py:111-120 | `{name}` is replaced before `{id}`, so an `{id}` inside the name becomes the id |
| InfoFilter.FixedTemplateIgnoresSender | filters/info_filter.py:111-120 | a template without placeholders is used unchanged whoever sent the message |
| InfoFilter.DefaultTimeTemplate | filters/info_filter.py:134-154 | the default template gives the formatted time after a blank line |
| InfoFilter.PrefixComesFirst | filters/info_filter.py:73-131 | the sender line begins with the comment prefix and is written exactly when the sender is asked for or there is a prefix |
| InfoFilter.Decorate | filters/info_filter.py:73-158 | without `is_original_time` the time field keeps its value, with it the time line starts with a blank line; without `is_original_sender` and with no comment prefix the sender field keeps its value |
| InfoFilter.OriginalLinkOverridesContext | filters/info_filter.py:51-68 | with `is_original_link` the link field is the original-message link, whatever was there before |
| InfoFilter.ContextLinkOnlyWhenComplete | filters/info_filter.py:41-48 | otherwise the link field is the channel post's link exactly when context is on and both ids are truthy |
| InfoFilter.MessageContext.constructor | filters/info_filter.py:16-30 | a fresh context has empty decoration fields and the given comment metadata |
| InfoFilter.MessageContext.Process | filters/info_filter.py:16-163 | the filter always lets the message go on, and the fields afterwards are those `Decorate` gives |
| PromptHandlers.SetField | handlers/prompt_handlers.py:92 | setting a field gives it the value and leaves the other fields, the id and the flags unchanged |
| PromptHandlers.SetFieldRestores | handlers/prompt_handlers.py:92 | putting a field's old value back restores the rule |
| PromptHandlers.SetFieldTwice | handlers/prompt_handlers.py:92-119 | setting a field twice keeps only the second value |
| PromptHandlers.RuleIdAfter | handlers/prompt_handlers.py:29 | the rule id taken from the state is the text after the tag's colon up to the next colon |
| PromptHandlers.TagHasNoColon | handlers/prompt_handlers.py:28-64 | no state tag contains a colon, so the rule id is the text after the tag |
| PromptHandlers.FirstTagged | handlers/prompt_handlers.py:28-63 | the field found is one whose tag starts the state; none is found only when no field's tag does |
| PromptHandlers.FirstTaggedOnly | handlers/prompt_handlers.py:28-63 | when exactly one field's tag starts the state, the chain selects that field |
| PromptHandlers.ParsePromptState | handlers/prompt_handlers.py:28-71 | a field state and a push-channel state each start with their tag and a colon and carry a rule id without a colon; the state is unknown exactly when no tag starts it |
| PromptHandlers.PrefixesExclusive | handlers/prompt_handlers.py:28-71 | two prefixes that differ at a shared position cannot both start a state |
| PromptHandlers.TagsDiffer | handlers/prompt_handlers.py:28-63 | the tags of two different fields differ at a position both have |
| PromptHandlers.TaggedState | handlers/prompt_handlers.py:28-29 | a state built from a tag, a colon and a rest starts with the tag and colon, and the rest follows them |
| PromptHandlers.ParseFieldState | handlers/prompt_handlers.py:28-63 | each field's tag selects that field, with the rule id after the colon |
| PromptHandlers.ParsePushChannelState | handlers/prompt_handlers.py:64-68 | the push-channel tag selects the push-channel handler |
| PromptHandlers.PushTagExcludes | handlers/prompt_handlers.py:28-68 | a push-channel state starts with no field's tag |
| PromptHandlers.SyncTargets | handlers/prompt_handlers.py:100 | the targets are exactly the sync rows' targets for the rule |
| PromptHandlers.Propagate | handlers/prompt_handlers.py:103-123 | the sync loop keeps the number and the ids of the rules |
| PromptHandlers.PropagateStep | handlers/prompt_handlers.py:107-119 | one turn of the sync loop sets the field of the rule with the target id, if any, and of no other rule |
| PromptHandlers.PropagateEffect | handlers/prompt_handlers.py:103-123 | a target rule gets the value in that field and nothing else; every other rule is unchanged |
| PromptHandlers.MediaSendMode | handlers/prompt_handlers.py:223-228 | the mode is `Multiple` exactly for a `mailto://`, `mailtos://` or `email://` channel, `Single` otherwise |
| PromptHandlers.SyncPush | handlers/prompt_handlers.py:243-279 | the push sync loop touches only rules and push configurations, keeps rule ids, and only appends configurations |
| PromptHandlers.PushStep | handlers/prompt_handlers.py:244-274 | one turn of the push sync loop touches only rules and push configurations, keeps rule ids, and only appends |
| PromptHandlers.PushStepRule | handlers/prompt_handlers.py:248-274 | one turn enables push only on the target rule, and only when it lacked the channel |
| PromptHandlers.HasPushConfigSplit | handlers/prompt_handlers.py:256-262 | a configuration is found in the table exactly when it is in its old part or among those appended |
| PromptHandlers.SyncPushAdds | handlers/prompt_handlers.py:256-277 | every added configuration is enabled, for a target, with the rule's mode, and never a duplicate of its rule and channel |
| PromptHandlers.SyncPushCovers | handlers/prompt_handlers.py:243-279 | every existing target ends up with a configuration for the channel |
| PromptHandlers.SyncPushRules | handlers/prompt_handlers.py:243-279 | push is enabled exactly on existing targets that lacked the channel; nothing else in the rules changes |
| PromptHandlers.SyncPushHas | handlers/prompt_handlers.py:243-279 | after the loop a rule has the channel exactly when it had it before or is a target |
| PromptHandlers.SyncPushKeeps | handlers/prompt_handlers.py:243-279 | the loop keeps push on for a rule that had it, and every existing target has the channel |
| PromptHandlers.NewValue | handlers/prompt_handlers.py:83-87 | the value is cleared exactly for a blank comment prefix; otherwise it is the message text, unstripped |
| PromptHandlers.SetPrompt | handlers/prompt_handlers.py:73-127 | setting a field writes only rules, keeps their number and ids, and leaves chats, sync rows, mappings and push configurations alone |
| PromptHandlers.WriteField | handlers/prompt_handlers.py:92-127 | writing the found rule's field, and its copies, keeps every table but the rules and every rule id |
| PromptHandlers.WriteFieldEffect | handlers/prompt_handlers.py:92-127 | with both commits through, the rule and each existing sync target hold the value in the field; every other rule is unchanged |
| PromptHandlers.UnknownStateDeclined | handlers/prompt_handlers.py:19-21 | an empty or unknown state is declined with no write |
| PromptHandlers.HandlePrompt | handlers/prompt_handlers.py:15-75 | an empty state is declined; a declined message writes nothing; rule ids, chats, sync rows and mappings are kept and existing push configurations stay in place |
| PromptHandlers.SetPromptWrites | handlers/prompt_handlers.py:77-127 | with both commits through, the rule and, with sync on, each target hold the value in the field; every other rule is unchanged |
| PromptHandlers.SetPromptCommitFailure | handlers/prompt_handlers.py:92-93 | a refused first commit raises and writes nothing |
| PromptHandlers.SetPromptRejects | handlers/prompt_handlers.py:77-203 | a rule id that does not convert, or converts to a value outside SQLite's 64-bit integers, raises and writes nothing; an unknown rule is answered `True` with no write |
| PromptHandlers.SetPromptSyncCommitFailure | handlers/prompt_handlers.py:92-199 | with sync on, a refused second commit raises, and the committed tables hold the rule's own write and no target's |
| PromptHandlers.OversizedRuleIdRaises | handlers/prompt_handlers.py:77-329 | a rule id outside [-2^63, 2^63) makes the lookup raise even when a rule has that id: setting a field raises (line 77, re-raised at 197-199), adding a push channel answers `False` (lines 212, 326-329), and neither writes |
| PromptHandlers.AddPushChannel | handlers/prompt_handlers.py:205-289 | adding a push channel keeps chats, sync rows, mappings, the number and ids of rules, and every existing push configuration |
| PromptHandlers.AddChannel | handlers/prompt_handlers.py:218-279 | the found rule's new configuration and its copies only append configurations and keep every other table and every rule id |
| PromptHandlers.AddChannelWrites | handlers/prompt_handlers.py:218-279 | the rule gets an enabled configuration with the scheme's mode and push on; with sync, every existing target has the channel |
| PromptHandlers.BlankPrefixRestoresDefault | handlers/prompt_handlers.py:83-87 | a blank prefix makes comments forwarded by the rule carry the default prefix again |
| PromptHandlers.AddPushChannelWrites | handlers/prompt_handlers.py:205-289 | a committed push channel gives the rule an enabled configuration with the scheme's mode and enables push; with sync, every existing target has the channel |
| PromptHandlers.AddPushChannelRollsBack | handlers/prompt_handlers.py:282-289 | a refused commit leaves the tables unchanged, and the handler still answers `True` for a known rule |
| PromptHandlers.AddPushChannelReply | handlers/prompt_handlers.py:205-329 | whatever the commit does, the reply is `True` exactly when the rule id converts, fits in 64 bits and names a rule; otherwise the answer is `False` with no write |
| PromptHandlers.SyncField | handlers/prompt_handlers.py:97-123 | the loop over the sync rows computes `Propagate` |
| PromptHandlers.SyncPushChannel | handlers/prompt_handlers.py:243-279 | the loop over the sync rows computes `SyncPush` |
| PromptHandlers.HandlePromptSetting | handlers/prompt_handlers.py:15-71 | the reply and committed tables are `HandlePrompt`'s |
| PromptHandlers.SetPromptInSession | handlers/prompt_handlers.py:73-203 | the reply and committed tables are `SetPrompt`'s |
| PromptHandlers.HandleAddPushChannel | handlers/prompt_handlers.py:205-330 | the reply and committed tables are `AddPushChannel`'s |

## Left out

- Platform I/O is not modelled: `get_entity`, `GetFullChannelRequest`, `construct_message_link`, message sending and deletion. Their answers are parameters: `RemoteOutcome`, the post link, the sender's looked-up channel title.
- asyncio scheduling and concurrency are not modelled. Each handler runs alone, and the `clear_group_cache` task is a timer whose due time is stored with the key.
- Clock, time zone and `strftime`: the time is an integer of seconds and the formatted time is a parameter.
- Flush and commit failures are booleans. There is no model of the database engine, migrations (`migrate_db`), `get_engine` or `init_db`.
- The state manager and the prompt handling ahead of the message handler are parameters (`stateActive`, `promptHandled`).
- The replies, settings pages and message deletions after a setting are left out.
- `process_forward_rule` and the filter chain around `InfoFilter` are left out. The model stops at the call with its client, chat id text, rule and metadata.
- `handle_bot_message`, the bot's command handling, `init_filter.py` and `comment_callback.py` are not part of this model.
- `ParseInt`: does not accept underscores or non-ASCII digits, which Python's `int()` does.
- Integer width: ids are unbounded integers. SQLite's 64-bit limit (the `sqlite:///` engine at models/models.py:508-509) is modelled only for the rule id a settings state carries (`RuleIdKey`), the one id that comes from text rather than from a stored row.
- The mapping table's surrogate `id` and the `chats` columns the core never reads are left out.
- Nullable boolean columns are read as their defaults.
- The logging is left out.
- Handle, HandleChat, ResolveInSession, HandleChatInSession, MessageListener.HandleUserMessage: use the warm-up as intended (`WarmUp`, a manager on the handler's session), not as written. As written, the constructor call raises and the handler never writes a cache row or a chat row. The job lists agree either way (`WarmUpKeepsJobs`); only the committed tables these members return differ (`WarmUpAsWrittenNeverCaches`).
- Dispatches: always plans one call per job. In the code the loop sits inside the handler's `try`, so a rule whose target chat is missing, or a `process_forward_rule` call that raises, ends the handler and the later jobs get no call. HandleChat and PlanDispatches share this gap.
- SessionScope: the body is a function of the pending tables that completes or raises. It cannot commit or roll back inside the scope, as a body given the yielded session could.
- ValidTables: does not include the foreign keys of the rules' source and target chats, of the sync rows, or of the push configurations. Only the unique constraints and the mapping's chat references are stated.
- The exception handlers around the info filter's sender and time lines are not modelled. Nothing inside them raises once the platform lookups are parameters.

## Findings

| source | as written | input that shows it | evidently intended | confidence | as-written member | corrected member |
|---|---|---|---|---|---|---|
| message_listener.py:144 | `CommentManager(user_client)` passes one argument; `__init__` at utils/comment_manager.py:21 needs the session and the client, so the call raises `TypeError`. The handler swallows it, and the cache is never warmed. | a chat whose enabled rule has `enable_comment_forward`, a stale cache row, and a platform answering "no linked group" | construct the manager with the handler's session and the client, so the link is resolved and cached before comment rules are looked up | not executed | MessageListener.WarmUpAsWrittenNeverCaches | MessageListener.WarmUpKeepsJobs |
